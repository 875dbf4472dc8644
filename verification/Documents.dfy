/** From a matched object to its indexed document and back to a search result. */
module Documents {
  import opened Json

  // ---- policies and evaluation -----------------------------------------------------------------

  datatype CelResult = CelError | CelBool(b: bool) | CelOther

  /** A compiled condition, as the answer it gives on an activation. */
  type Program = Fields -> CelResult

  datatype Policy = Policy(name: string, target: Gvk, indexName: string, conditions: map<string, Program>)

  datatype EvalResult = EvalResult(matched: bool, source: Fields, target: Gvk)

  function Activation(obj: Fields): Fields {
    map k | k in obj && k in {"metadata", "spec", "status"} :: obj[k]
  }

  /** The policy's type, and no conditions at all or some condition that is true. */
  ghost predicate Matches(p: Policy, obj: Fields) {
    && GvkOf(obj) == p.target
    && (p.conditions == map[] || exists n :: n in p.conditions && p.conditions[n](Activation(obj)) == CelBool(true))
  }

  /** A condition sees the object's metadata, spec and status, as they are, and nothing else. */
  lemma ConditionSees(target: Gvk, name: string, key: string, v: Json, obj: Fields)
    requires GvkOf(obj) == target
    ensures var p := Policy(name, target, name, map[name := (a: Fields) => CelBool(key in a && a[key] == v)]);
            Matches(p, obj) <==> (key == "metadata" || key == "spec" || key == "status") && key in obj && obj[key] == v
  {
    var p := Policy(name, target, name, map[name := (a: Fields) => CelBool(key in a && a[key] == v)]);
    assert name in p.conditions;
    var seen := Activation(obj);
    assert p.conditions[name](seen) == CelBool(key in seen && seen[key] == v);
  }

  /** Visits the conditions in arbitrary order and stops at the first that holds. */
  method Evaluate(p: Policy, obj: Fields) returns (r: EvalResult)
    ensures r.target == p.target
    ensures r.matched <==> Matches(p, obj)
    ensures r.source == if r.matched then obj else map[]
  {
    r := EvalResult(false, map[], p.target);
    if GvkOf(obj) != p.target {
      return;
    }
    var activation := Activation(obj);
    if |p.conditions| == 0 {
      r := r.(matched := true);
    }
    var remaining := p.conditions.Keys;
    while remaining != {} && !r.matched
      invariant remaining <= p.conditions.Keys && r.target == p.target && r.source == map[]
      invariant p.conditions == map[] ==> r.matched
      invariant r.matched ==> Matches(p, obj)
      invariant !r.matched ==>
                  forall n :: n in p.conditions && n !in remaining ==> p.conditions[n](activation) != CelBool(true)
      decreases remaining
    {
      var n :| n in remaining;
      remaining := remaining - {n};
      var out := p.conditions[n](activation);
      if out.CelError? {
        continue;
      }
      if out == CelBool(true) {
        r := r.(matched := true);
      }
    }
    if !r.matched {
      return;
    }
    r := r.(source := obj);
  }

  // ---- the indexed document -------------------------------------------------------------------------

  const LastApplied := "kubectl.kubernetes.io/last-applied-configuration"

  function StripAnnotations(meta: Fields): Fields {
    if "annotations" in meta && meta["annotations"].Object? then
      var annotations := meta["annotations"].fields - {LastApplied};
      if |annotations| == 0 then meta - {"annotations"} else meta["annotations" := Object(annotations)]
    else meta
  }

  function StripMeta(meta: Fields): Fields { StripAnnotations(meta - {"managedFields"}) }

  predicate IsSecret(target: Gvk) { target == Gvk("", "v1", "Secret") }

  /** The source object without tracking data and without secret payloads. */
  function Strip(obj: Fields, target: Gvk): Fields {
    var doc := if "metadata" in obj && obj["metadata"].Object?
               then obj["metadata" := Object(StripMeta(obj["metadata"].fields))] else obj;
    if IsSecret(target) then doc - {"data", "stringData"} else doc
  }

  /** What stripping leaves under a top-level key: everything but, for secrets, the payload. */
  function KeptAt(obj: Fields, target: Gvk, k: string): Option<Json> {
    if target == Gvk("", "v1", "Secret") && (k == "data" || k == "stringData") then None
    else if k == "metadata" && k in obj && obj[k].Object? then Some(Object(StripMeta(obj[k].fields)))
    else Lookup(obj, k)
  }

  /** What it leaves under a metadata key: everything but the tracking data and the
      applied-configuration annotation, with its map when nothing else is in it. */
  function KeptMeta(meta: Fields, k: string): Option<Json> {
    if k == "managedFields" then None
    else if k == "annotations" && k in meta && meta[k].Object? then
      var others := meta[k].fields - {"kubectl.kubernetes.io/last-applied-configuration"};
      if others == map[] then None else Some(Object(others))
    else Lookup(meta, k)
  }

  lemma StripExact(obj: Fields, target: Gvk, k: string)
    ensures Lookup(Strip(obj, target), k) == KeptAt(obj, target, k)
  {}

  lemma StripMetaExact(meta: Fields, k: string)
    ensures Lookup(StripMeta(meta), k) == KeptMeta(meta, k)
  {}

  /** What a document holds under a key: the policy's type and the tenant, whatever the object
      carried there, and otherwise what stripping leaves. */
  function StoredAt(obj: Fields, target: Gvk, tenant: string, tenantType: string, k: string): Option<Json> {
    if k == "apiVersion" then Some(Str(if target.group == "" then target.version else target.group + "/" + target.version))
    else if k == "kind" then Some(Str(target.kind))
    else if k == "_tenant" then Some(Str(if tenant == "" then "platform" else tenant))
    else if k == "_tenant_type" then Some(Str(if tenantType == "" then "platform" else tenantType))
    else KeptAt(obj, target, k)
  }

  /** Key by key, the document of an object, its uid included only if it carried none. */
  lemma DocumentExact(obj: Fields, target: Gvk, tenant: string, tenantType: string, uid: string, k: string)
    ensures Lookup(Document(obj, target, tenant, tenantType), k) == StoredAt(obj, target, tenant, tenantType, k)
    ensures Lookup(EnsureUid(Document(obj, target, tenant, tenantType), uid), k)
         == if k == "uid" && "uid" !in obj then Some(Str(uid)) else StoredAt(obj, target, tenant, tenantType, k)
  {
    StripExact(obj, target, k);
  }

  function JoinGroupVersion(group: string, version: string): string {
    if group != "" then group + "/" + version else version
  }

  function OrPlatform(s: string): string { if s == "" then "platform" else s }

  function Document(obj: Fields, target: Gvk, tenant: string, tenantType: string): Fields {
    Strip(obj, target)["apiVersion" := Str(JoinGroupVersion(target.group, target.version))]
      ["kind" := Str(target.kind)]["_tenant" := Str(OrPlatform(tenant))]["_tenant_type" := Str(OrPlatform(tenantType))]
  }

  /** Edits a copy of the metadata in place. */
  method CleanMeta(source: Fields) returns (meta: Fields)
    ensures meta == StripMeta(source)
  {
    meta := source - {"managedFields"};
    if "annotations" in meta && meta["annotations"].Object? {
      var annotations := meta["annotations"].fields - {LastApplied};
      if |annotations| == 0 {
        meta := meta - {"annotations"};
      } else {
        meta := meta["annotations" := Object(annotations)];
      }
    }
  }

  method CleanDocument(source: Fields, target: Gvk) returns (doc: Fields)
    ensures doc == Strip(source, target)
  {
    doc := source;
    if "metadata" in doc && doc["metadata"].Object? {
      var meta := CleanMeta(doc["metadata"].fields);
      doc := doc["metadata" := Object(meta)];
    }
    if target.group == "" && target.version == "v1" && target.kind == "Secret" {
      doc := doc - {"data"} - {"stringData"};
    }
  }

  /** Strips the copy, then lets the policy's type and the tenant win over what it carried. */
  method Transform(r: EvalResult, tenant: string, tenantType: string) returns (doc: Fields)
    ensures doc == Document(r.source, r.target, tenant, tenantType)
  {
    doc := CleanDocument(r.source, r.target);
    if r.target.group != "" {
      doc := doc["apiVersion" := Str(r.target.group + "/" + r.target.version)];
    } else {
      doc := doc["apiVersion" := Str(r.target.version)];
    }
    doc := doc["kind" := Str(r.target.kind)];
    doc := doc["_tenant" := Str(if tenant == "" then "platform" else tenant)];
    doc := doc["_tenant_type" := Str(if tenantType == "" then "platform" else tenantType)];
  }

  /** The uid is added only when the document has none. */
  function EnsureUid(doc: Fields, uid: string): Fields {
    if "uid" in doc then doc else doc["uid" := Str(uid)]
  }

  // ---- the overlay ----------------------------------------------------------------------------------------

  /** An apiVersion with at most one slash, and not at its start. */
  predicate Canonical(apiVersion: string) {
    SlashCount(apiVersion) <= 1 && (apiVersion == "" || apiVersion[0] != '/')
  }

  lemma {:induction false} SlashFound(s: string)
    ensures SlashCount(s) == 0 <==> IndexOf(s, '/') == |s|
  {
    if s != "" {
      SlashFound(s[1..]);
    }
  }

  /** Parsing an apiVersion and joining it again gives it back exactly when it is canonical. */
  lemma JoinParsed(apiVersion: string)
    ensures ParseGroupVersion(apiVersion).Some?
            && JoinGroupVersion(ParseGroupVersion(apiVersion).value.0, ParseGroupVersion(apiVersion).value.1) == apiVersion
       <==> Canonical(apiVersion)
  {
    SlashFound(apiVersion);
    var i := IndexOf(apiVersion, '/');
    if i < |apiVersion| {
      assert apiVersion == apiVersion[..i] + "/" + apiVersion[i + 1..];
    }
  }

  predicate HasString(obj: Fields, key: string) { key in obj && obj[key].Str? }

  predicate SameType(a: Fields, b: Fields) {
    Lookup(a, "apiVersion") == Lookup(b, "apiVersion") && Lookup(a, "kind") == Lookup(b, "kind")
  }

  /** For a matched object the overlay leaves apiVersion and kind as they were exactly when both
      are strings and the apiVersion is canonical. */
  lemma OverlayUnchanged(p: Policy, obj: Fields, tenant: string, tenantType: string)
    requires Matches(p, obj)
    ensures SameType(Document(obj, p.target, tenant, tenantType), obj)
       <==> (HasString(obj, "apiVersion") && HasString(obj, "kind") && Canonical(StringAt(obj, "apiVersion")))
  {
    var v := StringAt(obj, "apiVersion");
    JoinParsed(v);
    if ParseGroupVersion(v).None? {
      assert p.target == Gvk("", "", "");
      assert JoinGroupVersion("", "") == "" != v;
    }
  }

  // ---- search results ----------------------------------------------------------------------------------------

  datatype SearchResult = SearchResult(resource: Fields, score: real, tenant: string, tenantType: string)

  const Internal: set<string> := {"_rankingScore", "_federation", "_tenant", "_tenant_type"}

  /** Rounds to four decimals, halves away from zero. */
  function Round4(x: real): real {
    if x >= 0.0 then (x * 10000.0 + 0.5).Floor as real / 10000.0
    else -((-x * 10000.0 + 0.5).Floor as real / 10000.0)
  }

  function Score(hit: Fields): real {
    if "_rankingScore" in hit && hit["_rankingScore"].Number? then Round4(hit["_rankingScore"].n) else 0.0
  }

  /** A hit decodes to an object only if its kind is set and its apiVersion parses. */
  predicate Decodable(resource: Fields) { GvkOf(resource).kind != "" }

  function Formatted(hit: Fields): Option<SearchResult> {
    var resource := hit - Internal;
    if Decodable(resource) then
      Some(SearchResult(resource, Score(hit), OrPlatform(StringAt(hit, "_tenant")), OrPlatform(StringAt(hit, "_tenant_type"))))
    else None
  }

  /** Rounding gives the nearest multiple of a ten-thousandth, the one further from zero on a tie. */
  lemma RoundNearest(x: real)
    ensures Round4(x) * 10000.0 == (Round4(x) * 10000.0).Floor as real
    ensures x >= 0.0 ==> -0.00005 < Round4(x) - x <= 0.00005
    ensures x < 0.0 ==> -0.00005 <= Round4(x) - x < 0.00005
  {
    var n := if x >= 0.0 then (x * 10000.0 + 0.5).Floor else -(-x * 10000.0 + 0.5).Floor;
    assert Round4(x) * 10000.0 == n as real;
  }

  ghost predicate TwoSlashes(s: string) { exists i, j :: 0 <= i < j < |s| && s[i] == '/' && s[j] == '/' }

  lemma {:induction false} SlashPairs(s: string)
    ensures SlashCount(s) >= 2 <==> TwoSlashes(s)
    ensures SlashCount(s) >= 1 <==> '/' in s
  {
    if s != "" {
      var tail := s[1..];
      SlashPairs(tail);
      if i, j :| 0 <= i < j < |tail| && tail[i] == '/' && tail[j] == '/' {
        assert s[i + 1] == '/' && s[j + 1] == '/';
      }
      if s[0] == '/' && '/' in tail {
        var j :| 0 <= j < |tail| && tail[j] == '/';
        assert s[0] == '/' && s[j + 1] == '/';
      }
      if i, j :| 0 <= i < j < |s| && s[i] == '/' && s[j] == '/' {
        assert tail[j - 1] == '/';
        assert i > 0 ==> tail[i - 1] == '/';
      }
    }
  }

  /** A hit formats exactly when it has a kind and its apiVersion has at most one slash; the result is
      the hit without the four internal fields, with its tenant and the rounded score. */
  lemma FormattedExactly(hit: Fields, k: string)
    ensures Formatted(hit).Some? <==> StringAt(hit, "kind") != "" && !TwoSlashes(StringAt(hit, "apiVersion"))
    ensures Formatted(hit).Some? ==>
              var r := Formatted(hit).value;
              && Lookup(r.resource, k)
                 == (if k == "_rankingScore" || k == "_federation" || k == "_tenant" || k == "_tenant_type" then None
                     else Lookup(hit, k))
              && r.tenant == (if StringAt(hit, "_tenant") == "" then "platform" else StringAt(hit, "_tenant"))
              && r.tenantType == (if StringAt(hit, "_tenant_type") == "" then "platform" else StringAt(hit, "_tenant_type"))
              && r.score
                 == (if "_rankingScore" in hit && hit["_rankingScore"].Number? then Round4(hit["_rankingScore"].n) else 0.0)
  {
    var resource := hit - Internal;
    assert StringAt(resource, "kind") == StringAt(hit, "kind");
    assert StringAt(resource, "apiVersion") == StringAt(hit, "apiVersion");
    var v := StringAt(hit, "apiVersion");
    SlashPairs(v);
    SlashFound(v);
  }

  /** Reads score and tenant, removes the internal fields from the hit, then decodes what is left. */
  method FormatSearchResult(hit: Fields) returns (r: Option<SearchResult>, left: Fields)
    ensures r == Formatted(hit) && left == hit - Internal
  {
    var score := 0.0;
    if "_rankingScore" in hit {
      if hit["_rankingScore"].Number? {
        score := hit["_rankingScore"].n;
      }
      score := Round4(score);
    }
    var tenant, tenantType := "", "";
    if "_tenant" in hit {
      tenant := if hit["_tenant"].Str? then hit["_tenant"].s else tenant;
    }
    if "_tenant_type" in hit {
      tenantType := if hit["_tenant_type"].Str? then hit["_tenant_type"].s else tenantType;
    }
    if tenant == "" {
      tenant := "platform";
    }
    if tenantType == "" {
      tenantType := "platform";
    }
    left := hit - {"_rankingScore"};
    left := left - {"_federation"};
    left := left - {"_tenant"};
    left := left - {"_tenant_type"};
    assert left == hit - Internal;
    if GvkOf(left).kind == "" {
      return None, left;
    }
    return Some(SearchResult(left, score, tenant, tenantType)), left;
  }

  // ---- round trip -----------------------------------------------------------------------------------------------

  /** A stored document as the backend returns it: with a ranking score and federation data. */
  ghost predicate HitOf(hit: Fields, doc: Fields) {
    && doc.Keys <= hit.Keys <= doc.Keys + {"_rankingScore", "_federation"}
    && forall k :: k in doc ==> hit[k] == doc[k]
  }

  ghost predicate NoReserved(obj: Fields) { obj.Keys !! Internal + {"uid"} }

  lemma StripKeeps(obj: Fields, target: Gvk)
    ensures Strip(obj, target).Keys <= obj.Keys
    ensures forall k :: k in obj && k !in {"metadata", "data", "stringData"} ==>
              k in Strip(obj, target) && Strip(obj, target)[k] == obj[k]
  {}

  /** Searching a matched object's document returns the stripped source object with its uid, and
      the tenant it was indexed under. */
  lemma IndexToSearch(p: Policy, obj: Fields, uid: string, tenant: string, tenantType: string, hit: Fields)
    requires Matches(p, obj) && NoReserved(obj) && p.target.kind != ""
    requires HasString(obj, "apiVersion") && HasString(obj, "kind") && Canonical(StringAt(obj, "apiVersion"))
    requires HitOf(hit, EnsureUid(Document(obj, p.target, tenant, tenantType), uid))
    ensures Formatted(hit) == Some(SearchResult(Strip(obj, p.target)["uid" := Str(uid)], Score(hit),
                                                OrPlatform(tenant), OrPlatform(tenantType)))
  {
    var source := Strip(obj, p.target);
    StripKeeps(obj, p.target);
    OverlayUnchanged(p, obj, tenant, tenantType);
    var doc := Document(obj, p.target, tenant, tenantType);
    assert "uid" !in doc;
    var stored := EnsureUid(doc, uid);
    var resource := hit - Internal;
    assert resource == source["uid" := Str(uid)] by {
      forall k ensures Lookup(resource, k) == Lookup(source["uid" := Str(uid)], k) {
        ResourceAt(source, obj, doc, uid, hit, p.target, tenant, tenantType, k);
      }
      assert forall k :: (k in resource <==> Lookup(resource, k).Some?);
      SameFields(resource, source["uid" := Str(uid)]);
    }
    assert StringAt(resource, "apiVersion") == StringAt(obj, "apiVersion");
    assert StringAt(resource, "kind") == StringAt(obj, "kind");
    assert StringAt(hit, "_tenant") == OrPlatform(tenant);
    assert StringAt(hit, "_tenant_type") == OrPlatform(tenantType);
  }

  /** Key by key, what the search returns of the object's fields and of its metadata. */
  lemma SearchShows(p: Policy, obj: Fields, uid: string, tenant: string, tenantType: string, hit: Fields, k: string)
    requires Matches(p, obj) && NoReserved(obj) && p.target.kind != ""
    requires HasString(obj, "apiVersion") && HasString(obj, "kind") && Canonical(StringAt(obj, "apiVersion"))
    requires HitOf(hit, EnsureUid(Document(obj, p.target, tenant, tenantType), uid))
    ensures Formatted(hit).Some?
    ensures Lookup(Formatted(hit).value.resource, k) == if k == "uid" then Some(Str(uid)) else KeptAt(obj, p.target, k)
    ensures "metadata" in obj && obj["metadata"].Object? ==>
              && HasObject(Formatted(hit).value.resource, "metadata")
              && Lookup(Formatted(hit).value.resource["metadata"].fields, k) == KeptMeta(obj["metadata"].fields, k)
  {
    IndexToSearch(p, obj, uid, tenant, tenantType, hit);
    StripExact(obj, p.target, k);
    StripExact(obj, p.target, "metadata");
    if "metadata" in obj && obj["metadata"].Object? {
      StripMetaExact(obj["metadata"].fields, k);
    }
  }

  predicate HasObject(obj: Fields, key: string) { key in obj && obj[key].Object? }

  lemma ResourceAt(source: Fields, obj: Fields, doc: Fields, uid: string, hit: Fields,
                   target: Gvk, tenant: string, tenantType: string, k: string)
    requires source == Strip(obj, target) && doc == Document(obj, target, tenant, tenantType) && NoReserved(obj)
    requires SameType(doc, obj)
    requires "uid" !in doc && HitOf(hit, doc["uid" := Str(uid)])
    ensures Lookup(hit - Internal, k) == Lookup(source["uid" := Str(uid)], k)
  {
    StripKeeps(obj, target);
    if k in {"apiVersion", "kind"} {
      assert Lookup(source, k) == Lookup(obj, k);
    }
  }

  lemma SameFields(a: Fields, b: Fields)
    requires forall k :: Lookup(a, k) == Lookup(b, k)
    ensures a == b
  {
    forall k ensures (k in a <==> k in b) && (k in a ==> a[k] == b[k]) {
      assert Lookup(a, k) == Lookup(b, k);
    }
  }
}
