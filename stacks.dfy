/** What the tool reads back from CloudFormation: one step of the wait for a
    stack to settle, the outputs of a cluster stack, the clusters of a
    region, and the guard before deleting a stack. The service's answers
    are inputs. */
module Stacks {
  import opened Common
  import opened Text
  import opened Pairs

  /** A stack event: its `ResourceStatus` and `ResourceStatusReason`. */
  datatype Event = Event(resourceStatus: string, reason: string)

  /** What one service call of the wait loop did: its answer, or the text of
      the exception it raised. */
  datatype Call<T> = Answered(value: T) | Raised(error: string)

  /** What the loop's variables `request` and `event_report` hold between
      passes: the `StackStatus` of every stack `describe_stacks` listed, and
      the events `describe_stack_events` listed; None while still unbound. */
  datatype Bindings = Bindings(request: Option<seq<string>>, eventReport: Option<seq<Event>>)

  /** What one pass of the wait loop decides. */
  datatype PollResult = KeepWaiting | Finished | Stop(failure: Failure)

  const StatusUnavailable := "Unable to retrieve info for stack: "
  const NameError := "NameError"
  const UnboundLocalError := "UnboundLocalError"
  const IndexError := "IndexError"

  /** The reasons of the failed events, one per line, in event order. */
  function FailReason(events: seq<Event>): string
  {
    if events == [] then ""
    else FailReason(events[..|events| - 1])
         + (if Contains(events[|events| - 1].resourceStatus, "FAILED")
            then events[|events| - 1].reason + "\n" else "")
  }

  lemma {:induction false} FailReasonAppend(a: seq<Event>, b: seq<Event>)
    ensures FailReason(a + b) == FailReason(a) + FailReason(b)
    decreases |b|
  {
    if b == [] {
      assert a + b == a;
    } else {
      assert (a + b)[..|a + b| - 1] == a + b[..|b| - 1];
      FailReasonAppend(a, b[..|b| - 1]);
    }
  }

  /** The aggregated reason is empty exactly when no event failed. */
  lemma {:induction false} FailReasonEmpty(events: seq<Event>)
    ensures FailReason(events) == "" <==>
            forall i :: 0 <= i < |events| ==> !Contains(events[i].resourceStatus, "FAILED")
  {
    if events != [] {
      var n := |events|;
      FailReasonEmpty(events[..n - 1]);
      assert forall i :: 0 <= i < n - 1 ==> events[..n - 1][i] == events[i];
    }
  }

  /** The classification of the body of `_wait_cf_cmd`, after the describe
      calls: with exactly one stack, its status is looked up as a substring
      of the waiting state, then of the final state; anything else fails
      with the reasons of the failed events (and reading the events raises
      `UnboundLocalError` when they were never fetched). No stack is an
      unknown stack; more than one reaches a misspelled name and raises
      `NameError`. */
  function Classification(waitState: string, endState: string, stackName: string,
                          statuses: seq<string>, events: Option<seq<Event>>): PollResult
  {
    if |statuses| == 1 then
      if Contains(waitState, statuses[0]) then KeepWaiting
      else if Contains(endState, statuses[0]) then Finished
      else if events.None? then Stop(Crash(UnboundLocalError))
      else Stop(Fatal(UnsupportedStatus + statuses[0] + "\n\n" + FailReason(events.value)))
    else if |statuses| == 0 then Stop(Fatal(UnknownStack + stackName))
    else Stop(Crash(NameError))
  }

  /** The classification as the loop body computes it, gathering the
      reasons of the failed events one by one. */
  method ClassifyReport(waitState: string, endState: string, stackName: string,
                        statuses: seq<string>, events: Option<seq<Event>>)
    returns (r: PollResult)
    ensures r == Classification(waitState, endState, stackName, statuses, events)
    ensures |statuses| == 1 && Contains(waitState, statuses[0]) ==> r == KeepWaiting
    ensures |statuses| == 1 && !Contains(waitState, statuses[0]) && Contains(endState, statuses[0])
            ==> r == Finished
    ensures |statuses| == 1 && !Contains(waitState, statuses[0]) && !Contains(endState, statuses[0])
            && events.Some?
            ==> r == Stop(Fatal(UnsupportedStatus + statuses[0] + "\n\n" + FailReason(events.value)))
    ensures |statuses| == 0 ==> r == Stop(Fatal(UnknownStack + stackName))
    ensures |statuses| > 1 ==> r == Stop(Crash(NameError))
  {
    if |statuses| == 1 {
      var status := statuses[0];
      if Contains(waitState, status) {
        return KeepWaiting;
      } else if Contains(endState, status) {
        return Finished;
      }
      if events.None? {
        return Stop(Crash(UnboundLocalError));
      }
      var eventReport := events.value;
      var failReason := "";
      for i := 0 to |eventReport|
        invariant failReason == FailReason(eventReport[..i])
      {
        assert eventReport[..i + 1][..i] == eventReport[..i];
        if Contains(eventReport[i].resourceStatus, "FAILED") {
          failReason := failReason + eventReport[i].reason + "\n";
        }
      }
      assert eventReport[..|eventReport|] == eventReport;
      return Stop(Fatal(UnsupportedStatus + status + "\n\n" + failReason));
    } else if |statuses| == 0 {
      return Stop(Fatal(UnknownStack + stackName));
    }
    return Stop(Crash(NameError));
  }

  /** The exception the `try` block of the wait loop raised, if any:
      `describe_stack_events` is called only once `describe_stacks` answered. */
  function RaisedError(stacksCall: Call<seq<string>>, eventsCall: Call<seq<Event>>): Option<string>
  {
    if stacksCall.Raised? then Some(stacksCall.error)
    else if eventsCall.Raised? then Some(eventsCall.error)
    else None
  }

  /** The loop's variables after the `try` block: each call that answered
      rebinds its variable, the others keep the previous pass's value. */
  function Rebound(stacksCall: Call<seq<string>>, eventsCall: Call<seq<Event>>, previous: Bindings): Bindings
  {
    if stacksCall.Raised? then previous
    else if eventsCall.Raised? then Bindings(Some(stacksCall.value), previous.eventReport)
    else Bindings(Some(stacksCall.value), Some(eventsCall.value))
  }

  /** One pass of the wait loop. `previous` holds what the earlier passes
      bound. When either call raises an exception whose text mentions
      "exist" (the stack was deleted), the stacks bound after the `try`
      block are reused with the first one's status set to the final state;
      any other exception ends the tool. Returns the decision and the
      bindings the next pass starts from. */
  method PollStep(waitState: string, endState: string, stackName: string,
                  stacksCall: Call<seq<string>>, eventsCall: Call<seq<Event>>, previous: Bindings)
    returns (r: PollResult, next: Bindings)
    ensures RaisedError(stacksCall, eventsCall).None? ==>
              next == Bindings(Some(stacksCall.value), Some(eventsCall.value))
              && r == Classification(waitState, endState, stackName, stacksCall.value, Some(eventsCall.value))
    ensures RaisedError(stacksCall, eventsCall).Some? && !Contains(RaisedError(stacksCall, eventsCall).value, "exist")
            ==> r == Stop(Fatal(StatusUnavailable + stackName))
    ensures RaisedError(stacksCall, eventsCall).Some? && Contains(RaisedError(stacksCall, eventsCall).value, "exist")
            ==> var bound := Rebound(stacksCall, eventsCall, previous);
                if bound.request.None? then r == Stop(Crash(UnboundLocalError))
                else if |bound.request.value| == 0 then r == Stop(Crash(IndexError))
                else next == Bindings(Some(bound.request.value[0 := endState]), bound.eventReport)
                     && r == Classification(waitState, endState, stackName, next.request.value, next.eventReport)
  {
    next := Rebound(stacksCall, eventsCall, previous);
    var error := RaisedError(stacksCall, eventsCall);
    if error.Some? {
      if !Contains(error.value, "exist") {
        r := Stop(Fatal(StatusUnavailable + stackName));
        return;
      }
      if next.request.None? {
        r := Stop(Crash(UnboundLocalError));
        return;
      }
      if |next.request.value| == 0 {
        r := Stop(Crash(IndexError));
        return;
      }
      next := next.(request := Some(next.request.value[0 := endState]));
    }
    r := ClassifyReport(waitState, endState, stackName, next.request.value, next.eventReport);
  }

  /** Once the stack is gone, a pass that still sees one stack finishes,
      whichever call noticed it and whatever events it has: the final state
      is in itself, and a final state that is not part of the waiting
      state is not waited on. */
  lemma {:induction false} DeletedStackFinishes(waitState: string, endState: string, stackName: string,
                                                statuses: seq<string>, events: Option<seq<Event>>)
    requires |statuses| == 1 && !Contains(waitState, endState)
    ensures Classification(waitState, endState, stackName, statuses[0 := endState], events) == Finished
  {
    StatusIsInItself(endState);
  }

  /** A status always lies inside a state equal to it. */
  lemma StatusIsInItself(s: string)
    ensures Contains(s, s)
  {
  }

  /** A stack as `describe_stacks` lists it: its name and its outputs as
      (`OutputKey`, `OutputValue`) pairs. */
  datatype StackDescription = StackDescription(name: string, outputs: seq<(string, string)>)

  /** The record `_describe_stack` returns. */
  datatype StackInfo = StackInfo(url: Option<string>, awsCname: Option<string>,
                                 clusterCname: Option<string>, dnsAuto: bool)

  function Named(stacks: seq<StackDescription>): seq<(string, seq<(string, string)>)>
  {
    seq(|stacks|, i requires 0 <= i < |stacks| => (stacks[i].name, stacks[i].outputs))
  }

  /** The loop over one stack's outputs in `_describe_stack`: a later output
      with the same key overwrites an earlier one. */
  method ReadOutputs(outputs: seq<(string, string)>)
    returns (url: Option<string>, awsCname: Option<string>, clusterCname: Option<string>)
    ensures url == LastValue(outputs, "URL", None)
    ensures awsCname == LastValue(outputs, "AWSCname", None)
    ensures clusterCname == LastValue(outputs, "ClusterCname", None)
  {
    url, awsCname, clusterCname := None, None, None;
    for k := 0 to |outputs|
      invariant url == LastValue(outputs[..k], "URL", None)
      invariant awsCname == LastValue(outputs[..k], "AWSCname", None)
      invariant clusterCname == LastValue(outputs[..k], "ClusterCname", None)
    {
      LastValueAppend(outputs[..k], outputs[k], "URL", None);
      LastValueAppend(outputs[..k], outputs[k], "AWSCname", None);
      LastValueAppend(outputs[..k], outputs[k], "ClusterCname", None);
      assert outputs[..k + 1] == outputs[..k] + [outputs[k]];
      if outputs[k].0 == "URL" {
        url := Some(outputs[k].1);
      } else if outputs[k].0 == "AWSCname" {
        awsCname := Some(outputs[k].1);
      } else if outputs[k].0 == "ClusterCname" {
        clusterCname := Some(outputs[k].1);
      }
    }
    assert outputs[..|outputs|] == outputs;
  }

  /** `_describe_stack`: the outputs of the first stack with the cluster's
      name; `dns-auto` tells whether the stack has the resource that creates
      the DNS record. */
  method DescribeStack(stackName: string, stacks: seq<StackDescription>, resources: seq<string>)
    returns (info: StackInfo)
    ensures var outputs := FirstValue(Named(stacks), stackName);
            outputs.None? ==> info.url.None? && info.awsCname.None? && info.clusterCname.None?
    ensures var outputs := FirstValue(Named(stacks), stackName);
            outputs.Some? ==> info.url == LastValue(outputs.value, "URL", None)
                              && info.awsCname == LastValue(outputs.value, "AWSCname", None)
                              && info.clusterCname == LastValue(outputs.value, "ClusterCname", None)
    ensures info.dnsAuto <==> "KurentoResourceSet" in resources
  {
    var url, awsCname, clusterCname := None, None, None;
    var i := 0;
    while i < |stacks|
      invariant i <= |stacks|
      invariant forall j :: 0 <= j < i ==> stacks[j].name != stackName
      invariant url.None? && awsCname.None? && clusterCname.None?
    {
      if stacks[i].name == stackName {
        url, awsCname, clusterCname := ReadOutputs(stacks[i].outputs);
        FirstValueIsFirst(Named(stacks), stackName, i);
        break;
      }
      i := i + 1;
    }
    if i == |stacks| {
      FirstValueAbsent(Named(stacks), stackName);
    }
    var dnsAuto := false;
    for k := 0 to |resources|
      invariant dnsAuto <==> "KurentoResourceSet" in resources[..k]
    {
      if resources[k] == "KurentoResourceSet" {
        dnsAuto := true;
        break;
      }
    }
    assert resources[..|resources|] == resources;
    info := StackInfo(url, awsCname, clusterCname, dnsAuto);
  }

  /** A stack summary of `list_stacks`, with the parameter names of its
      template (None when `get_template` fails). */
  datatype StackSummary = StackSummary(stackId: string, name: string, status: string,
                                       templateParameters: Option<seq<string>>)

  /** One line of the cluster list. */
  datatype ClusterEntry = ClusterEntry(name: string, status: string)

  /** The stacks `_list` looks at: in the region and not deleted. */
  predicate Candidate(s: StackSummary, region: string)
  {
    Contains(s.stackId, region) && s.status != "DELETE_COMPLETE"
  }

  /** A stack whose template declares the `KurentoCluster` parameter. */
  predicate IsCluster(templateParameters: seq<string>)
  {
    "KurentoCluster" in templateParameters
  }

  /** The clusters of a region, in list order, or the failure when a
      template cannot be fetched. */
  function Clusters(summaries: seq<StackSummary>, region: string): Result<seq<ClusterEntry>>
  {
    if summaries == [] then Ok([])
    else
      var s := summaries[|summaries| - 1];
      match Clusters(summaries[..|summaries| - 1], region)
      case Err(f) => Err(f)
      case Ok(entries) =>
        if !Candidate(s, region) then Ok(entries)
        else if s.templateParameters.None? then Err(Fatal(ListFailed))
        else if IsCluster(s.templateParameters.value) then Ok(entries + [ClusterEntry(s.name, s.status)])
        else Ok(entries)
  }

  /** Every listed cluster comes from a stack of the region that is not
      deleted and whose template is a Kurento Cluster template, and every
      such stack is listed. */
  lemma {:induction false} ClustersMembers(summaries: seq<StackSummary>, region: string, e: ClusterEntry)
    requires Clusters(summaries, region).Ok?
    ensures e in Clusters(summaries, region).value <==>
            exists i :: 0 <= i < |summaries| && summaries[i].name == e.name && summaries[i].status == e.status
                        && Candidate(summaries[i], region) && summaries[i].templateParameters.Some?
                        && IsCluster(summaries[i].templateParameters.value)
  {
    if summaries != [] {
      var n := |summaries|;
      ClustersMembers(summaries[..n - 1], region, e);
      assert forall i :: 0 <= i < n - 1 ==> summaries[..n - 1][i] == summaries[i];
    }
  }

  /** The listing fails exactly when a candidate stack's template cannot be
      fetched. */
  lemma {:induction false} ClustersFailure(summaries: seq<StackSummary>, region: string)
    ensures Clusters(summaries, region).Err? <==>
            exists i :: 0 <= i < |summaries| && Candidate(summaries[i], region)
                        && summaries[i].templateParameters.None?
    ensures Clusters(summaries, region).Err? ==> Clusters(summaries, region).failure == Fatal(ListFailed)
  {
    if summaries != [] {
      var n := |summaries|;
      ClustersFailure(summaries[..n - 1], region);
      assert forall i :: 0 <= i < n - 1 ==> summaries[..n - 1][i] == summaries[i];
    }
  }

  /** `_list`: walk the stacks, fetch the template of every candidate, and
      keep those that are Kurento clusters. */
  method ListClusters(summaries: seq<StackSummary>, region: string) returns (r: Result<seq<ClusterEntry>>)
    ensures r == Clusters(summaries, region)
  {
    var entries := [];
    for i := 0 to |summaries|
      invariant Clusters(summaries[..i], region) == Ok(entries)
    {
      assert summaries[..i + 1][..i] == summaries[..i];
      var s := summaries[i];
      if Candidate(s, region) {
        if s.templateParameters.None? {
          ClustersFailure(summaries, region);
          ClustersFailure(summaries[..i + 1], region);
          return Err(Fatal(ListFailed));
        }
        if IsCluster(s.templateParameters.value) {
          entries := entries + [ClusterEntry(s.name, s.status)];
        }
      }
    }
    assert summaries[..|summaries|] == summaries;
    return Ok(entries);
  }

  /** `_delete` before the wait: only a stack whose template is a Kurento
      Cluster template is deleted. `templateParameters` is None when
      `get_template` fails, and `deleted` tells whether `delete_stack`
      succeeded. */
  method CheckDeletable(stackName: string, templateParameters: Option<seq<string>>, deleted: bool)
    returns (r: Outcome)
    ensures r == Pass <==> templateParameters.Some? && IsCluster(templateParameters.value) && deleted
    ensures templateParameters.None? || (IsCluster(templateParameters.value) && !deleted)
            ==> r == Fail(Fatal(DeletionFailed + stackName + DueTo))
    ensures templateParameters.Some? && !IsCluster(templateParameters.value)
            ==> r == Fail(Fatal(NotKurentoCluster + stackName))
  {
    if templateParameters.None? {
      return Fail(Fatal(DeletionFailed + stackName + DueTo));
    }
    if !IsCluster(templateParameters.value) {
      return Fail(Fatal(NotKurentoCluster + stackName));
    }
    if !deleted {
      return Fail(Fatal(DeletionFailed + stackName + DueTo));
    }
    return Pass;
  }

  /** A cluster that the list shows passes the delete guard, given the same
      template and a delete call that succeeds. */
  lemma ListedClusterIsDeletable(summaries: seq<StackSummary>, region: string, i: nat)
    requires Clusters(summaries, region).Ok?
    requires i < |summaries|
    requires ClusterEntry(summaries[i].name, summaries[i].status) in Clusters(summaries, region).value
    ensures exists j :: 0 <= j < |summaries| && summaries[j].name == summaries[i].name
                        && summaries[j].templateParameters.Some?
                        && IsCluster(summaries[j].templateParameters.value)
  {
    ClustersMembers(summaries, region, ClusterEntry(summaries[i].name, summaries[i].status));
  }
}
