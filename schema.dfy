/**
  Translation between the engine's generic attribute tree and the
  three nested request/response structs of a container provider
  (expandEMRContainers* and flattenEMRContainers* in virtual_cluster.go).

  A nested block of the schema is a list of at most one map. Go's
  `[]interface{}` is a `seq<AttrValue>`, `map[string]interface{}` is a
  `map<string, AttrValue>` and a nil interface value is `Null`.
*/
module Schema {
  import opened Wrappers

  /** A value of the generic attribute tree. */
  datatype AttrValue =
    | Null
    | Str(s: string)
    | List(items: seq<AttrValue>)
    | Map(fields: map<string, AttrValue>)

  /** emrcontainers.EksInfo */
  datatype EksInfo = EksInfo(namespace: Option<string>)

  /** emrcontainers.ContainerInfo */
  datatype ContainerInfo = ContainerInfo(eksInfo: Option<EksInfo>)

  /** emrcontainers.ContainerProvider; every field is a pointer. */
  datatype ContainerProvider = ContainerProvider(
    id: Option<string>,
    providerType: Option<string>,
    info: Option<ContainerInfo>)

  /** A failed Go type assertion, which panics at run time. */
  datatype Panic =
    | NotAMap               // l[0].(map[string]interface{})
    | NotAString(key: string)  // m[key].(string), also when key is missing
    | NotAList(key: string)    // v.([]interface{})

  /** A *string stored into the tree: the engine keeps the string it points to. */
  function FromPointer(p: Option<string>): AttrValue {
    if p.Some? then Str(p.value) else Null
  }

  /** An expand returns nil exactly for these lists. */
  predicate AbsentBlock(l: seq<AttrValue>) {
    |l| == 0 || l[0] == Null
  }

  // ---------------------------------------------------------------- expand

  function ExpandEksInfo(l: seq<AttrValue>): (r: Result<Option<EksInfo>, Panic>)
    ensures r == Ok(None) <==> AbsentBlock(l)
    ensures r.Ok? && r.value.Some? ==>
      l[0].Map? &&
      (r.value.value.namespace.Some? <==> "namespace" in l[0].fields) &&
      (r.value.value.namespace.Some? ==>
         l[0].fields["namespace"] == Str(r.value.value.namespace.value))
  {
    if AbsentBlock(l) then Ok(None)
    else if !l[0].Map? then Err(NotAMap)
    else
      var m := l[0].fields;
      if "namespace" in m then
        if m["namespace"].Str? then Ok(Some(EksInfo(Some(m["namespace"].s))))
        else Err(NotAString("namespace"))
      else Ok(Some(EksInfo(None)))
  }

  function ExpandContainerInfo(l: seq<AttrValue>): (r: Result<Option<ContainerInfo>, Panic>)
    ensures r == Ok(None) <==> AbsentBlock(l)
    ensures r.Ok? && r.value.Some? ==>
      l[0].Map? &&
      (r.value.value.eksInfo.Some? ==>
         "eks_info" in l[0].fields && l[0].fields["eks_info"].List? &&
         ExpandEksInfo(l[0].fields["eks_info"].items) == Ok(r.value.value.eksInfo)) &&
      ("eks_info" in l[0].fields ==>
         l[0].fields["eks_info"].List? &&
         ExpandEksInfo(l[0].fields["eks_info"].items) == Ok(r.value.value.eksInfo))
  {
    if AbsentBlock(l) then Ok(None)
    else if !l[0].Map? then Err(NotAMap)
    else
      var m := l[0].fields;
      if "eks_info" in m then
        if !m["eks_info"].List? then Err(NotAList("eks_info"))
        else
          match ExpandEksInfo(m["eks_info"].items)
          case Err(p) => Err(p)
          case Ok(ei) => Ok(Some(ContainerInfo(ei)))
      else Ok(Some(ContainerInfo(None)))
  }

  function ExpandContainerProvider(l: seq<AttrValue>): (r: Result<Option<ContainerProvider>, Panic>)
    ensures r == Ok(None) <==> AbsentBlock(l)
    ensures r.Ok? && r.value.Some? ==>
      l[0].Map? &&
      r.value.value.id.Some? && "id" in l[0].fields && l[0].fields["id"] == Str(r.value.value.id.value) &&
      r.value.value.providerType.Some? && "type" in l[0].fields &&
      l[0].fields["type"] == Str(r.value.value.providerType.value) &&
      (r.value.value.info.Some? ==>
         "info" in l[0].fields && l[0].fields["info"].List? &&
         ExpandContainerInfo(l[0].fields["info"].items) == Ok(r.value.value.info)) &&
      ("info" in l[0].fields ==>
         l[0].fields["info"].List? &&
         ExpandContainerInfo(l[0].fields["info"].items) == Ok(r.value.value.info))
  {
    if AbsentBlock(l) then Ok(None)
    else if !l[0].Map? then Err(NotAMap)
    else
      var m := l[0].fields;
      if "id" !in m || !m["id"].Str? then Err(NotAString("id"))
      else if "type" !in m || !m["type"].Str? then Err(NotAString("type"))
      else
        var input := ContainerProvider(Some(m["id"].s), Some(m["type"].s), None);
        if "info" in m then
          if !m["info"].List? then Err(NotAList("info"))
          else
            match ExpandContainerInfo(m["info"].items)
            case Err(p) => Err(p)
            case Ok(ci) => Ok(Some(input.(info := ci)))
        else Ok(Some(input))
  }

  // --------------------------------------------------------------- flatten

  function FlattenEksInfo(ei: Option<EksInfo>): (r: seq<AttrValue>)
    ensures r == [] <==> ei.None?
    ensures ei.Some? ==>
      |r| == 1 && r[0].Map? &&
      r[0].fields.Keys == (if ei.value.namespace.Some? then {"namespace"} else {}) &&
      (ei.value.namespace.Some? ==> r[0].fields["namespace"] == Str(ei.value.namespace.value))
  {
    if ei.None? then []
    else
      var m: map<string, AttrValue> := map[];
      var m := if ei.value.namespace.Some? then m["namespace" := FromPointer(ei.value.namespace)] else m;
      [Map(m)]
  }

  function FlattenContainerInfo(ci: Option<ContainerInfo>): (r: seq<AttrValue>)
    ensures r == [] <==> ci.None?
    ensures ci.Some? ==>
      |r| == 1 && r[0].Map? &&
      r[0].fields.Keys == (if ci.value.eksInfo.Some? then {"eks_info"} else {}) &&
      (ci.value.eksInfo.Some? ==> r[0].fields["eks_info"] == List(FlattenEksInfo(ci.value.eksInfo)))
  {
    if ci.None? then []
    else
      var m: map<string, AttrValue> := map[];
      var m := if ci.value.eksInfo.Some? then m["eks_info" := List(FlattenEksInfo(ci.value.eksInfo))] else m;
      [Map(m)]
  }

  function FlattenContainerProvider(cp: Option<ContainerProvider>): (r: seq<AttrValue>)
    ensures r == [] <==> cp.None?
    ensures cp.Some? ==>
      |r| == 1 && r[0].Map? &&
      r[0].fields.Keys == {"id", "type"} + (if cp.value.info.Some? then {"info"} else {}) &&
      r[0].fields["id"] == FromPointer(cp.value.id) &&
      r[0].fields["type"] == FromPointer(cp.value.providerType) &&
      (cp.value.info.Some? ==> r[0].fields["info"] == List(FlattenContainerInfo(cp.value.info)))
  {
    if cp.None? then []
    else
      var m := map["id" := FromPointer(cp.value.id), "type" := FromPointer(cp.value.providerType)];
      var m := if cp.value.info.Some? then m["info" := List(FlattenContainerInfo(cp.value.info))] else m;
      [Map(m)]
  }

  // ---------------------------------------------------- expand after flatten

  lemma ExpandFlattenEksInfo(ei: Option<EksInfo>)
    ensures ExpandEksInfo(FlattenEksInfo(ei)) == Ok(ei)
  {
  }

  lemma ExpandFlattenContainerInfo(ci: Option<ContainerInfo>)
    ensures ExpandContainerInfo(FlattenContainerInfo(ci)) == Ok(ci)
  {
    if ci.Some? {
      ExpandFlattenEksInfo(ci.value.eksInfo);
    }
  }

  /** A provider whose id and type pointers are set survives flatten then expand. */
  lemma ExpandFlattenContainerProvider(cp: Option<ContainerProvider>)
    requires cp.Some? ==> cp.value.id.Some? && cp.value.providerType.Some?
    ensures ExpandContainerProvider(FlattenContainerProvider(cp)) == Ok(cp)
  {
    if cp.Some? {
      ExpandFlattenContainerInfo(cp.value.info);
    }
  }

  /** With a nil id or type pointer the tree holds Null there and expand panics. */
  lemma ExpandFlattenNilPointer(cp: ContainerProvider)
    requires cp.id.None? || cp.providerType.None?
    ensures ExpandContainerProvider(FlattenContainerProvider(Some(cp))).Err?
  {
  }

  // ---------------------------------------------------- flatten after expand

  /**
    The trees that flatten produces from providers whose Id and Type are
    set: no Null element, no extra key, no empty nested block.
  */
  ghost predicate CanonicalEksInfo(l: seq<AttrValue>) {
    |l| == 0 ||
    (|l| == 1 && l[0].Map? && l[0].fields.Keys <= {"namespace"} &&
     ("namespace" in l[0].fields ==> l[0].fields["namespace"].Str?))
  }

  ghost predicate CanonicalContainerInfo(l: seq<AttrValue>) {
    |l| == 0 ||
    (|l| == 1 && l[0].Map? && l[0].fields.Keys <= {"eks_info"} &&
     ("eks_info" in l[0].fields ==>
        l[0].fields["eks_info"].List? && |l[0].fields["eks_info"].items| == 1 &&
        CanonicalEksInfo(l[0].fields["eks_info"].items)))
  }

  ghost predicate CanonicalContainerProvider(l: seq<AttrValue>) {
    |l| == 0 ||
    (|l| == 1 && l[0].Map? && {"id", "type"} <= l[0].fields.Keys <= {"id", "type", "info"} &&
     l[0].fields["id"].Str? && l[0].fields["type"].Str? &&
     ("info" in l[0].fields ==>
        l[0].fields["info"].List? && |l[0].fields["info"].items| == 1 &&
        CanonicalContainerInfo(l[0].fields["info"].items)))
  }

  lemma FlattenExpandEksInfo(l: seq<AttrValue>)
    requires CanonicalEksInfo(l)
    ensures ExpandEksInfo(l).Ok? && FlattenEksInfo(ExpandEksInfo(l).value) == l
  {
    if |l| == 1 {
      var m := l[0].fields;
      var r := FlattenEksInfo(ExpandEksInfo(l).value);
      assert r[0].fields == m by {
        assert r[0].fields.Keys == m.Keys;
      }
    }
  }

  lemma FlattenExpandContainerInfo(l: seq<AttrValue>)
    requires CanonicalContainerInfo(l)
    ensures ExpandContainerInfo(l).Ok? && FlattenContainerInfo(ExpandContainerInfo(l).value) == l
  {
    if |l| == 1 {
      var m := l[0].fields;
      if "eks_info" in m {
        FlattenExpandEksInfo(m["eks_info"].items);
      }
      var r := FlattenContainerInfo(ExpandContainerInfo(l).value);
      assert r[0].fields == m by {
        assert r[0].fields.Keys == m.Keys;
      }
    }
  }

  /** A canonical tree survives expand then flatten. */
  lemma FlattenExpandContainerProvider(l: seq<AttrValue>)
    requires CanonicalContainerProvider(l)
    ensures ExpandContainerProvider(l).Ok? && FlattenContainerProvider(ExpandContainerProvider(l).value) == l
  {
    if |l| == 1 {
      var m := l[0].fields;
      if "info" in m {
        FlattenExpandContainerInfo(m["info"].items);
      }
      var r := FlattenContainerProvider(ExpandContainerProvider(l).value);
      assert r[0].fields == m by {
        assert r[0].fields.Keys == m.Keys;
      }
    }
  }

  /** ... and canonical trees are exactly what flatten produces. */
  lemma FlattenIsCanonical(cp: Option<ContainerProvider>)
    requires cp.Some? ==> cp.value.id.Some? && cp.value.providerType.Some?
    ensures CanonicalContainerProvider(FlattenContainerProvider(cp))
  {
  }

  /** The asymmetry: a nil first element or an empty nested block does not come back. */
  lemma FlattenExpandNotIdentity()
    ensures ExpandContainerProvider([Null]) == Ok(None)
    ensures FlattenContainerProvider(None) == []
    ensures var l := [Map(map["id" := Str("c"), "type" := Str("EKS"), "info" := List([])])];
            ExpandContainerProvider(l) == Ok(Some(ContainerProvider(Some("c"), Some("EKS"), None))) &&
            FlattenContainerProvider(ExpandContainerProvider(l).value) != l
  {
    var l := [Map(map["id" := Str("c"), "type" := Str("EKS"), "info" := List([])])];
    var r := FlattenContainerProvider(ExpandContainerProvider(l).value);
    assert "info" !in r[0].fields;
  }

  /** The namespace is copied verbatim, the empty string included. */
  lemma ExpandNamespaceVerbatim(l: seq<AttrValue>, ns: string)
    requires |l| > 0 && l[0].Map? && "namespace" in l[0].fields && l[0].fields["namespace"] == Str(ns)
    ensures ExpandEksInfo(l) == Ok(Some(EksInfo(Some(ns))))
  {
  }
}
