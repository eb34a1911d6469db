/**
  The create, read and delete handlers of the virtual cluster resource
  (resourceVirtualClusterCreate, resourceVirtualClusterRead and
  resourceVirtualClusterDelete). The engine's ResourceData is a class
  whose id and attributes the handlers update; the remote control plane
  is a Client that records the calls issued to it, and what each call
  returned is a parameter of the handler.
*/
module Resource {
  import opened Wrappers
  import opened Schema
  import opened Status

  /** Which step of a handler failed (the wrapping text of the message is left out). */
  datatype Step = Creating | WaitingCreated | Reading | Deleting | WaitingDeleted

  /**
    How resource.StateChangeConf.WaitForState fails: the timeout passed,
    a status outside both lists was seen, the cluster stayed absent, or
    the refresh itself returned an error.
  */
  datatype WaitError =
    | Timeout
    | UnexpectedState(state: string)
    | NotFoundWhileWaiting
    | RefreshFailed(cause: AwsError)

  /**
    A handler's error: a remote call that failed, a wait that failed, an
    attribute the engine refused to store, or the panic of a failed type
    assertion.
  */
  datatype Failure =
    | Failed(step: Step, cause: AwsError)
    | WaitFailed(step: Step, waitCause: WaitError)
    | SetFailed(step: Step, key: string)
    | Panicked(panic: Panic)

  /** emrcontainers.CreateVirtualClusterInput */
  datatype CreateInput = CreateInput(containerProvider: Option<ContainerProvider>, name: Option<string>)

  /** What CreateVirtualCluster gave back: an error, or an output holding the new id. */
  datatype CreateResponse = CreateFailed(err: AwsError) | Created(id: Option<string>)

  /** A call issued to the remote service; a wait stands for all the describes it polls. */
  datatype ApiCall =
    | CreateCall(input: CreateInput)
    | DescribeCall(id: string)
    | DeleteCall(id: string)
    | WaitCall(conf: StateChangeConf, id: string)

  /** The EMR containers connection: the log of calls issued through it. */
  class Client {
    var calls: seq<ApiCall>

    constructor ()
      ensures calls == []
    {
      calls := [];
    }

    method Issue(c: ApiCall)
      modifies this
      ensures calls == old(calls) + [c]
    {
      calls := calls + [c];
    }
  }

  // ------------------------------------------------------ read decisions

  /** What a read does with the state it was given. */
  datatype ReadOutcome = RemoveFromState | ReadFailed(cause: AwsError) | Populate(vc: VirtualCluster)

  /** The branches of resourceVirtualClusterRead on the result of findVirtualClusterById. */
  function ReadOutcomeOf(f: FindResult, isNew: bool): (r: ReadOutcome)
    ensures r.RemoveFromState? <==> (IsNotFound(f.err) && !isNew) || (f.err.None? && f.vc.None?)
    ensures r.ReadFailed? <==> f.err.Some? && (isNew || !IsNotFound(f.err))
    ensures r.ReadFailed? ==> r.cause == f.err.value
    ensures r.Populate? ==> f.err.None? && f.vc == Some(r.vc)
  {
    if f.err.Some? then
      if IsNotFound(f.err) && !isNew then RemoveFromState else ReadFailed(f.err.value)
    else if f.vc.None? then RemoveFromState
    else Populate(f.vc.value)
  }

  /** time.Time{}.String(), what aws.TimeValue of a nil timestamp renders as. */
  const ZeroTimeText: string := "0001-01-01 00:00:00 +0000 UTC"

  function CreatedAtText(t: Option<string>): (r: string)
    ensures t.Some? ==> r == t.value
    ensures t.None? ==> r == ZeroTimeText
  {
    if t.Some? then t.value else ZeroTimeText
  }

  /** The resource id after a read. */
  function IdAfterRead(id: string, o: ReadOutcome): (r: string)
    ensures r == "" <==> o.RemoveFromState? || id == ""
    ensures !o.RemoveFromState? ==> r == id
  {
    if o.RemoveFromState? then "" else id
  }

  /**
    The attributes after a read: untouched unless the cluster was found;
    when setting container_provider fails only arn has been set.
  */
  function AttrsAfterRead(attrs: map<string, AttrValue>, o: ReadOutcome, setProviderFails: bool)
    : (r: map<string, AttrValue>)
    ensures !o.Populate? ==> r == attrs
    ensures o.Populate? && setProviderFails ==> r == attrs["arn" := FromPointer(o.vc.arn)]
    ensures o.Populate? && !setProviderFails ==>
      r.Keys == attrs.Keys + {"arn", "container_provider", "created_at", "name", "state"} &&
      r["container_provider"] == List(FlattenContainerProvider(o.vc.containerProvider)) &&
      r["name"] == FromPointer(o.vc.name) && r["state"] == FromPointer(o.vc.state) &&
      r["arn"] == FromPointer(o.vc.arn) && r["created_at"] == Str(CreatedAtText(o.vc.createdAt)) &&
      forall k :: k in attrs && k !in {"arn", "container_provider", "created_at", "name", "state"} ==> r[k] == attrs[k]
  {
    match o
    case Populate(vc) =>
      var a := attrs["arn" := FromPointer(vc.arn)];
      if setProviderFails then a
      else
        a["container_provider" := List(FlattenContainerProvider(vc.containerProvider))]
         ["created_at" := Str(CreatedAtText(vc.createdAt))]
         ["name" := FromPointer(vc.name)]
         ["state" := FromPointer(vc.state)]
    case _ => attrs
  }

  /** The error a read returns. */
  function ErrAfterRead(o: ReadOutcome, setProviderFails: bool): (r: Option<Failure>)
    ensures r.None? <==> o.RemoveFromState? || (o.Populate? && !setProviderFails)
    ensures o.ReadFailed? ==> r == Some(Failed(Reading, o.cause))
    ensures o.Populate? && setProviderFails ==> r == Some(SetFailed(Reading, "container_provider"))
  {
    match o
    case RemoveFromState => None
    case ReadFailed(e) => Some(Failed(Reading, e))
    case Populate(_) => if setProviderFails then Some(SetFailed(Reading, "container_provider")) else None
  }

  /**
    In steady state a read agrees with the status probe: it forgets the
    resource exactly when the probe finds no cluster and no error, fails
    exactly when the probe reports an error, and otherwise reads back the
    probed cluster.
  */
  lemma ReadFollowsProbe(resp: DescribeResponse)
    ensures var o := ReadOutcomeOf(FindVirtualClusterById(resp), false);
            var p := Probe(resp);
            (o.RemoveFromState? <==> p.obj.None? && p.err.None?) &&
            (o.ReadFailed? <==> p.err.Some?) &&
            (o.ReadFailed? ==> p.err == Some(o.cause)) &&
            (o.Populate? <==> p.obj.Some?) &&
            (o.Populate? ==> p.obj == Some(o.vc))
  {
  }

  /** Right after creation a not-found describe is an error, though the probe calls it NotFound. */
  lemma NewResourceNotFoundFails(resp: DescribeResponse)
    requires resp.DescribeFailed? && resp.err.code == ErrCodeResourceNotFound
    ensures ReadOutcomeOf(FindVirtualClusterById(resp), true) == ReadFailed(resp.err)
    ensures ReadOutcomeOf(FindVirtualClusterById(resp), false) == RemoveFromState
    ensures Probe(resp) == Refresh(None, StatusNotFound, None)
  {
  }

  /**
    Create followed by read: when the service reports back the provider
    that create sent, the container_provider attribute read back is the
    configured one.
  */
  lemma CreateThenReadKeepsProvider(l: seq<AttrValue>, n: string, attrs: map<string, AttrValue>, vc: VirtualCluster)
    requires CanonicalContainerProvider(l)
    requires ExpandContainerProvider(l).Ok? && vc.containerProvider == ExpandContainerProvider(l).value
    requires vc.name == Some(n)
    ensures AttrsAfterRead(attrs, Populate(vc), false)["container_provider"] == List(l)
    ensures AttrsAfterRead(attrs, Populate(vc), false)["name"] == Str(n)
  {
    FlattenExpandContainerProvider(l);
  }

  // ---------------------------------------------------- delete decisions

  /** The calls a delete issues: the wait follows only a successful delete call. */
  function DeleteCalls(id: string, deleteErr: Option<AwsError>): (r: seq<ApiCall>)
    ensures |r| == (if deleteErr.None? then 2 else 1) && r[0] == DeleteCall(id)
    ensures WaitCall(DeletedWaitConf(), id) in r <==> deleteErr.None?
  {
    [DeleteCall(id)] + if deleteErr.None? then [WaitCall(DeletedWaitConf(), id)] else []
  }

  /** The error a delete returns: not-found counts as already deleted. */
  function DeleteResult(deleteErr: Option<AwsError>, waitErr: Option<WaitError>): (r: Option<Failure>)
    ensures r.None? <==> IsNotFound(deleteErr) || (deleteErr.None? && waitErr.None?)
    ensures deleteErr.Some? && !IsNotFound(deleteErr) ==> r == Some(Failed(Deleting, deleteErr.value))
    ensures deleteErr.None? && waitErr.Some? ==> r == Some(WaitFailed(WaitingDeleted, waitErr.value))
  {
    if deleteErr.Some? then
      if IsNotFound(deleteErr) then None else Some(Failed(Deleting, deleteErr.value))
    else if waitErr.Some? then Some(WaitFailed(WaitingDeleted, waitErr.value))
    else None
  }

  /** Deleting a cluster that is already gone succeeds without waiting. */
  lemma DeleteIdempotent(id: string, deleteErr: Option<AwsError>, waitErr: Option<WaitError>)
    requires IsNotFound(deleteErr)
    ensures DeleteResult(deleteErr, waitErr).None?
    ensures DeleteCalls(id, deleteErr) == [DeleteCall(id)]
  {
  }

  // ------------------------------------------------------------ the state

  /** schema.ResourceData: the resource id, whether it is being created, and its attributes. */
  class ResourceData {
    var id: string
    var isNewResource: bool
    var attrs: map<string, AttrValue>

    constructor (id: string, isNewResource: bool, attrs: map<string, AttrValue>)
      ensures this.id == id && this.isNewResource == isNewResource && this.attrs == attrs
    {
      this.id := id;
      this.isNewResource := isNewResource;
      this.attrs := attrs;
    }

    /** d.Get(key).(string) on a string attribute; an unset one reads as "". */
    function GetString(key: string): string
      reads this
    {
      if key in attrs && attrs[key].Str? then attrs[key].s else ""
    }

    /** d.Get(key).([]interface{}) on a list attribute; an unset one reads as empty. */
    function GetList(key: string): seq<AttrValue>
      reads this
    {
      if key in attrs && attrs[key].List? then attrs[key].items else []
    }

    method SetId(v: string)
      modifies this`id
      ensures id == v
    {
      id := v;
    }

    method Set(key: string, v: AttrValue)
      modifies this`attrs
      ensures attrs == old(attrs)[key := v]
    {
      attrs := attrs[key := v];
    }

    /**
      resourceVirtualClusterRead. `resp` is what DescribeVirtualCluster
      returned; `setProviderFails` says whether the engine refused to set the
      container_provider attribute.
    */
    method Read(conn: Client, resp: DescribeResponse, setProviderFails: bool)
      returns (err: Option<Failure>)
      modifies this, conn
      ensures conn.calls == old(conn.calls) + [DescribeCall(old(id))]
      ensures isNewResource == old(isNewResource)
      ensures var o := ReadOutcomeOf(FindVirtualClusterById(resp), old(isNewResource));
              id == IdAfterRead(old(id), o) &&
              attrs == AttrsAfterRead(old(attrs), o, setProviderFails) &&
              err == ErrAfterRead(o, setProviderFails)
    {
      conn.Issue(DescribeCall(id));
      var f := FindVirtualClusterById(resp);
      if f.err.Some? {
        if IsNotFound(f.err) && !isNewResource {
          SetId("");
          return None;
        }
        return Some(Failed(Reading, f.err.value));
      }
      if f.vc.None? {
        SetId("");
        return None;
      }
      var vc := f.vc.value;
      Set("arn", FromPointer(vc.arn));
      if setProviderFails {
        return Some(SetFailed(Reading, "container_provider"));
      }
      Set("container_provider", List(FlattenContainerProvider(vc.containerProvider)));
      Set("created_at", Str(CreatedAtText(vc.createdAt)));
      Set("name", FromPointer(vc.name));
      Set("state", FromPointer(vc.state));
      return None;
    }

    /**
      resourceVirtualClusterDelete. `deleteErr` is what DeleteVirtualCluster
      returned and `waitErr` what the deletion wait returned, if it runs.
    */
    method Delete(conn: Client, deleteErr: Option<AwsError>, waitErr: Option<WaitError>)
      returns (err: Option<Failure>)
      modifies conn
      ensures conn.calls == old(conn.calls) + DeleteCalls(id, deleteErr)
      ensures err == DeleteResult(deleteErr, waitErr)
    {
      conn.Issue(DeleteCall(id));
      if deleteErr.Some? {
        if IsNotFound(deleteErr) {
          return None;
        }
        return Some(Failed(Deleting, deleteErr.value));
      }
      conn.Issue(WaitCall(DeletedWaitConf(), id));
      if waitErr.Some? {
        return Some(WaitFailed(WaitingDeleted, waitErr.value));
      }
      return None;
    }

    /**
      resourceVirtualClusterCreate. `createResp` is what CreateVirtualCluster
      returned, `waitErr` what the creation wait returned, and `readResp`
      and `setProviderFails` feed the read that follows.
    */
    method Create(conn: Client, createResp: CreateResponse, waitErr: Option<WaitError>,
                  readResp: DescribeResponse, setProviderFails: bool)
      returns (err: Option<Failure>)
      modifies this, conn
      ensures isNewResource == old(isNewResource)
      ensures var p := ExpandContainerProvider(old(GetList("container_provider")));
              p.Err? ==>
                err == Some(Panicked(p.error)) && id == old(id) && attrs == old(attrs) &&
                conn.calls == old(conn.calls)
      ensures var p := ExpandContainerProvider(old(GetList("container_provider")));
              p.Ok? && createResp.CreateFailed? ==>
                var call := CreateCall(CreateInput(p.value, Some(old(GetString("name")))));
                err == Some(Failed(Creating, createResp.err)) && id == old(id) && attrs == old(attrs) &&
                conn.calls == old(conn.calls) + [call]
      ensures var p := ExpandContainerProvider(old(GetList("container_provider")));
              p.Ok? && createResp.Created? && waitErr.Some? ==>
                var call := CreateCall(CreateInput(p.value, Some(old(GetString("name")))));
                var newId := StringValue(createResp.id);
                err == Some(WaitFailed(WaitingCreated, waitErr.value)) && id == newId && attrs == old(attrs) &&
                conn.calls == old(conn.calls) + [call, WaitCall(CreatedWaitConf(), newId)]
      ensures var p := ExpandContainerProvider(old(GetList("container_provider")));
              p.Ok? && createResp.Created? && waitErr.None? ==>
                var call := CreateCall(CreateInput(p.value, Some(old(GetString("name")))));
                var newId := StringValue(createResp.id);
                var o := ReadOutcomeOf(FindVirtualClusterById(readResp), old(isNewResource));
                id == IdAfterRead(newId, o) &&
                attrs == AttrsAfterRead(old(attrs), o, setProviderFails) &&
                err == ErrAfterRead(o, setProviderFails) &&
                conn.calls == old(conn.calls) + [call, WaitCall(CreatedWaitConf(), newId), DescribeCall(newId)]
    {
      var provider := ExpandContainerProvider(GetList("container_provider"));
      if provider.Err? {
        return Some(Panicked(provider.error));
      }
      var input := CreateInput(provider.value, Some(GetString("name")));
      conn.Issue(CreateCall(input));
      if createResp.CreateFailed? {
        return Some(Failed(Creating, createResp.err));
      }
      SetId(StringValue(createResp.id));
      conn.Issue(WaitCall(CreatedWaitConf(), id));
      if waitErr.Some? {
        return Some(WaitFailed(WaitingCreated, waitErr.value));
      }
      err := Read(conn, readResp, setProviderFails);
    }
  }

  /**
    Create followed by its read-back, on the handler itself: when the
    service creates the cluster, the wait succeeds and the describe
    reports back the provider and name that were sent, the resource ends
    with the new id and the configured container_provider and name.
  */
  method CreateThenRead(d: ResourceData, conn: Client, newId: string, vc: VirtualCluster)
    returns (err: Option<Failure>)
    requires CanonicalContainerProvider(d.GetList("container_provider"))
    requires ExpandContainerProvider(d.GetList("container_provider")).Ok?
    requires vc.containerProvider == ExpandContainerProvider(d.GetList("container_provider")).value
    requires vc.name == Some(d.GetString("name"))
    modifies d, conn
    ensures err.None?
    ensures d.id == newId
    ensures "container_provider" in d.attrs && d.attrs["container_provider"] == List(old(d.GetList("container_provider")))
    ensures "name" in d.attrs && d.attrs["name"] == Str(old(d.GetString("name")))
  {
    CreateThenReadKeepsProvider(d.GetList("container_provider"), d.GetString("name"), d.attrs, vc);
    err := d.Create(conn, Created(Some(newId)), None, Output(Some(vc)), false);
  }
}
