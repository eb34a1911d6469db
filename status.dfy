/**
  Describing a virtual cluster and classifying the result for the
  state-change wait (findVirtualClusterById, statusVirtualCluster and the
  two wait configurations of virtual_cluster.go).
*/
module Status {
  import opened Wrappers
  import opened Schema

  /** An error returned by the remote service; `code` is the AWS error code. */
  datatype AwsError = AwsError(code: string, message: string)

  const ErrCodeResourceNotFound: string := "ResourceNotFoundException"

  /** tfawserr.ErrCodeEquals(err, ResourceNotFoundException); false for a nil error. */
  predicate IsNotFound(err: Option<AwsError>): (r: bool)
    ensures r ==> err.Some?
    ensures err.Some? ==> (r <==> err.value.code == ErrCodeResourceNotFound)
  {
    err.Some? && err.value.code == ErrCodeResourceNotFound
  }

  /** emrcontainers.VirtualCluster; created_at is held as its rendered text. */
  datatype VirtualCluster = VirtualCluster(
    arn: Option<string>,
    name: Option<string>,
    containerProvider: Option<ContainerProvider>,
    createdAt: Option<string>,
    state: Option<string>)

  /** What DescribeVirtualCluster gave back: an error, a nil output, or an output. */
  datatype DescribeResponse =
    | DescribeFailed(err: AwsError)
    | NoOutput
    | Output(virtualCluster: Option<VirtualCluster>)

  /** The pair (*VirtualCluster, error) of findVirtualClusterById. */
  datatype FindResult = FindResult(vc: Option<VirtualCluster>, err: Option<AwsError>)

  /** aws.StringValue: the string pointed to, or "" for nil. */
  function StringValue(p: Option<string>): string {
    if p.Some? then p.value else ""
  }

  function FindVirtualClusterById(resp: DescribeResponse): (r: FindResult)
    ensures r.err.Some? <==> resp.DescribeFailed?
    ensures r.err.Some? ==> r.err.value == resp.err && r.vc.None?
    ensures r.vc.Some? <==> resp.Output? && resp.virtualCluster.Some?
    ensures r.vc.Some? ==> r.vc == resp.virtualCluster
  {
    match resp
    case DescribeFailed(e) => FindResult(None, Some(e))
    case NoOutput => FindResult(None, None)
    case Output(vc) => FindResult(vc, None)
  }

  const StatusNotFound: string := "NotFound"
  const StatusUnknown: string := "Unknown"

  /** The triple returned by a resource.StateRefreshFunc. */
  datatype Refresh = Refresh(obj: Option<VirtualCluster>, status: string, err: Option<AwsError>)

  function StatusVirtualCluster(f: FindResult): (r: Refresh)
    ensures r.err.Some? <==> f.err.Some? && !IsNotFound(f.err)
    ensures r.err.Some? ==> r.err == f.err && r.obj.None? && r.status == StatusUnknown
    ensures r.obj.Some? <==> f.err.None? && f.vc.Some?
    ensures r.obj.Some? ==> r.obj == f.vc && r.status == StringValue(f.vc.value.state)
    ensures r.obj.None? && r.err.None? ==> r.status == StatusNotFound
  {
    if IsNotFound(f.err) then Refresh(None, StatusNotFound, None)
    else if f.err.Some? then Refresh(None, StatusUnknown, f.err)
    else if f.vc.None? then Refresh(None, StatusNotFound, None)
    else Refresh(f.vc, StringValue(f.vc.value.state), None)
  }

  /** The refresh function the waits poll: describe, then classify. */
  function Probe(resp: DescribeResponse): (r: Refresh)
    ensures r.err.Some? <==> resp.DescribeFailed? && resp.err.code != ErrCodeResourceNotFound
    ensures r.err.Some? ==> r.err == Some(resp.err)
    ensures r.obj == (if resp.Output? then resp.virtualCluster else None)
    ensures r.obj.None? && r.err.None? ==> r.status == StatusNotFound
    ensures r.obj.Some? ==> r.status == StringValue(r.obj.value.state)
  {
    StatusVirtualCluster(FindVirtualClusterById(resp))
  }

  /** The four outcomes of a describe call and how each is classified. */
  lemma ProbeClassification(resp: DescribeResponse)
    ensures resp.DescribeFailed? && resp.err.code == ErrCodeResourceNotFound ==>
      Probe(resp) == Refresh(None, StatusNotFound, None)
    ensures resp.DescribeFailed? && resp.err.code != ErrCodeResourceNotFound ==>
      Probe(resp) == Refresh(None, StatusUnknown, Some(resp.err))
    ensures resp.NoOutput? || resp == Output(None) ==>
      Probe(resp) == Refresh(None, StatusNotFound, None)
    ensures resp.Output? && resp.virtualCluster.Some? ==>
      Probe(resp) == Refresh(resp.virtualCluster, StringValue(resp.virtualCluster.value.state), None)
  {
  }

  // ------------------------------------------------------- wait settings

  /** time.Duration counts nanoseconds. */
  const Minute: nat := 60_000_000_000

  const VirtualClusterCreatedTimeout: nat := 90 * Minute
  const VirtualClusterCreatedDelay: nat := 1 * Minute
  const VirtualClusterDeletedTimeout: nat := 90 * Minute
  const VirtualClusterDeletedDelay: nat := 1 * Minute

  const VirtualClusterStateRunning: string := "RUNNING"
  const VirtualClusterStateTerminating: string := "TERMINATING"
  const VirtualClusterStateTerminated: string := "TERMINATED"

  /** The data of a resource.StateChangeConf; its Refresh is always Probe for the resource's id. */
  datatype StateChangeConf = StateChangeConf(
    pending: seq<string>,
    target: seq<string>,
    timeout: nat,
    delay: nat)

  /** Wait for RUNNING with no pending state, polling every minute for up to 90 minutes. */
  function CreatedWaitConf(): (c: StateChangeConf)
    ensures c.pending == [] && c.target == ["RUNNING"]
    ensures c.timeout == 90 * c.delay && c.delay == Minute
  {
    StateChangeConf([], [VirtualClusterStateRunning], VirtualClusterCreatedTimeout, VirtualClusterCreatedDelay)
  }

  /** Wait from TERMINATING to TERMINATED, polling every minute for up to 90 minutes. */
  function DeletedWaitConf(): (c: StateChangeConf)
    ensures c.pending == ["TERMINATING"] && c.target == ["TERMINATED"]
    ensures c.timeout == 90 * c.delay && c.delay == Minute
  {
    StateChangeConf([VirtualClusterStateTerminating], [VirtualClusterStateTerminated],
                    VirtualClusterDeletedTimeout, VirtualClusterDeletedDelay)
  }

  /**
    A wait can only reach its target on a describe that returned a cluster
    in that very state: the synthetic NotFound and Unknown statuses are
    never a target, and an error never comes with a target status.
  */
  lemma TargetOnlyFromCluster(resp: DescribeResponse, conf: StateChangeConf)
    requires conf == CreatedWaitConf() || conf == DeletedWaitConf()
    requires Probe(resp).status in conf.target
    ensures resp.Output? && resp.virtualCluster.Some?
    ensures Probe(resp).obj == resp.virtualCluster && Probe(resp).err.None?
    ensures resp.virtualCluster.value.state == Some(Probe(resp).status)
  {
    var r := Probe(resp);
    assert r.status != StatusNotFound && r.status != StatusUnknown;
  }

  /** An unset cluster state reads as the empty status, which neither wait waits for. */
  lemma NilStateIsNoTarget(vc: VirtualCluster)
    requires vc.state.None?
    ensures Probe(Output(Some(vc))).status == ""
    ensures "" !in CreatedWaitConf().target && "" !in DeletedWaitConf().target
    ensures "" !in DeletedWaitConf().pending
  {
  }
}
