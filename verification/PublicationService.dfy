/**
 The publication action as the source has it: durable record updates around one adapter call. Everything it does to the
 record, and every command and read of its call, is proved to be a run of PublicationProtocol.
 */
module PublicationServices {
  import opened Primitives
  import opened GitHubPublisher
  import opened GitHubRemote
  import opened PublicationProtocol

  lemma CommandsOfOneMore(calls: seq<Call>, c: Call)
    ensures Commands(calls + [c]) == Commands(calls) + c.pushes + c.creates
  {
    assert (calls + [c])[..|calls|] == calls;
  }

  class DraftPublication {
    const github: GitHub
    var record: Option<ActionState>

    /** The record is that of the request in the adapter's run of the protocol. */
    ghost predicate Valid()
      reads this, github
    {
      github.Valid() && record == github.request.record
    }

    constructor (github: GitHub)
      requires github.Valid() && github.request.record.None?
      ensures this.github == github && record.None? && Valid()
    {
      this.github, record := github, None;
    }

    /** What the protocol's theorems say of any run holds of this one. */
    lemma Attempted()
      requires Valid()
      ensures RequestInv(github.request) && OneAttempt(github.request)
      ensures record == Some(Succeeded) ==> SeenPublished(github.start, github.trace, github.request.input)
    {
      assert github.request in Run(github.start, github.trace).requests;
      RunKeeps(github.start, github.trace);
      AtMostOneAttempt(github.start, github.trace, 0);
    }

    /** The claim transaction: only the first caller whose reviewed inputs are still current gets it. */
    method Claim(admitted: bool) returns (claimed: bool)
      requires Valid()
      modifies this, github`trace, github`request
      ensures Valid() && github.trace == old(github.trace) + [At(0, PublicationProtocol.Claim(admitted))]
      ensures github.request == RequestAfter(old(github.request), github.state, PublicationProtocol.Claim(admitted))
      ensures claimed <==> admitted && old(record).None?
      ensures record == if claimed then Some(Dispatched) else old(record)
    {
      github.Note(PublicationProtocol.Claim(admitted));
      if !admitted || record.Some? {
        return false;
      }
      record := Some(Prepared);
      record := Some(Dispatched);
      return true;
    }

    /** The outcome transaction of call i, which never overwrites a success. */
    method RecordOutcome(reconcileOnly: bool, result: Result, ghost i: nat)
      requires Valid() && record.Some? && i < |github.request.calls|
      requires github.request.calls[i].stage == Over(result) && github.request.calls[i].reconcileOnly == reconcileOnly
      modifies this, github`trace, github`request
      ensures Valid() && github.trace == old(github.trace) + [At(0, Record(i))]
      ensures github.request == RequestAfter(old(github.request), github.state, Record(i))
      ensures record == Some(Recorded(old(record).value, reconcileOnly, result))
    {
      github.Note(Record(i));
      if record == Some(Succeeded) {
        return;
      }
      match result
      case Returned => record := Some(Succeeded);
      case Refused(why) => record := Some(if reconcileOnly || why.Uncertain? then Unknown else Failed);
      case Broke => record := Some(Unknown);
    }

    /** One adapter call and the record of its outcome; `broke` says that something else threw after the call. */
    method Execute(input: Input, reconcileOnly: bool, local: Local, broke: bool, ghost i: nat)
      returns (result: Result, ghost d: Call)
      requires Valid() && record.Some? && github.request.input == input
      requires i < |github.request.calls| && github.request.calls[i] == NewCall(reconcileOnly)
      modifies this, github
      ensures Valid() && old(github.trace) <= github.trace
      ensures github.request.calls == old(github.request.calls)[i := d] && github.request.input == input
      ensures record == Some(Recorded(old(record).value, reconcileOnly, result))
      ensures d.pushes <= 1 && d.creates <= 1
      ensures reconcileOnly || (result.Refused? && !result.why.Uncertain?) ==> d.pushes == 0 && d.creates == 0
      ensures github.undisturbed ==>
                && OnlyAdds(old(github.state), github.state, input)
                && (d.pushes == 0 && d.creates == 0 ==> github.state == old(github.state))
                && (result.Returned? ==> DraftPublished(github.state, input))
    {
      ghost var q := github.request;
      var published;
      published, d := github.PublishDraft(input, reconcileOnly, local, q, i);
      result := if broke then Broke else ResultOf(published);
      if broke {
        github.Note(Break(i));
        d := d.(stage := Over(Broke));
      }
      RecordOutcome(reconcileOnly, result, i);
      d := d.(stage := Gone);
    }

    /** An unknown outcome is looked up; the remote is only read. */
    method Reconcile(input: Input, local: Local, broke: bool) returns (result: Result)
      requires Valid() && github.request.input == input && record == Some(Unknown)
      modifies this, github
      ensures Valid() && old(github.trace) <= github.trace && github.request.input == input
      ensures record == Some(if result.Returned? then Succeeded else Unknown)
      ensures Commands(github.request.calls) == Commands(old(github.request.calls))
      ensures github.undisturbed ==>
                github.state == old(github.state) && (result.Returned? ==> DraftPublished(github.state, input))
    {
      ghost var calls := github.request.calls;
      github.Note(PublicationProtocol.Reconcile);
      ghost var d;
      result, d := Execute(input, true, local, broke, |calls|);
      CommandsOfOneMore(calls, d);
      assert github.request.calls == calls + [d];
    }

    /** The one attempt of a claimed request. */
    method Attempt(input: Input, local: Local, broke: bool) returns (result: Result)
      requires Valid() && github.request.input == input && record == Some(Dispatched)
      requires github.request.calls == [NewCall(false)]
      modifies this, github
      ensures Valid() && old(github.trace) <= github.trace && github.request.input == input
      ensures record == Some(Recorded(Dispatched, false, result))
      ensures github.undisturbed ==>
                && OnlyAdds(old(github.state), github.state, input)
                && (record == Some(Failed) ==> github.state == old(github.state))
                && (record == Some(Succeeded) ==> DraftPublished(github.state, input))
    {
      ghost var d;
      result, d := Execute(input, false, local, broke, 0);
    }

    /**
     The whole action; `None` says that it was refused without a call. Whatever anyone else does to the remote
     meanwhile, reconciling issues no command, a failed record means that none was issued, and a success that the exact
     draft was seen. On a remote nobody else touches, the same holds of the remote itself.
     */
    method PublishDraft(input: Input, admitted: bool, local: Local, broke: bool) returns (result: Option<Result>)
      requires Valid() && github.request.input == input
      modifies this, github
      ensures Valid() && old(github.trace) <= github.trace
      ensures OneAttempt(github.request)
      ensures record == Some(Succeeded) ==> SeenPublished(github.start, github.trace, input)
      ensures result.None? <==> (old(record).Some? && old(record) != Some(Unknown)) || (old(record).None? && !admitted)
      ensures result.None? ==>
                record == old(record) && github.request == old(github.request) && github.state == old(github.state)
      ensures old(record) == Some(Unknown) ==>
                && record == Some(if result == Some(Returned) then Succeeded else Unknown)
                && Commands(github.request.calls) == Commands(old(github.request.calls))
                && (github.undisturbed ==> github.state == old(github.state))
      ensures old(record).None? && admitted ==> record in {Some(Succeeded), Some(Failed), Some(Unknown)}
      ensures github.undisturbed ==>
                && OnlyAdds(old(github.state), github.state, input)
                && (old(record).None? && record == Some(Failed) ==> github.state == old(github.state))
                && (old(record) != Some(Succeeded) && record == Some(Succeeded) ==> DraftPublished(github.state, input))
    {
      Attempted();
      if record == Some(Unknown) {
        var outcome := Reconcile(input, local, broke);
        Attempted();
        return Some(outcome);
      }
      if record.Some? {
        return None;
      }
      var claimed := Claim(admitted);
      if !claimed {
        return None;
      }
      var outcome := Attempt(input, local, broke);
      Attempted();
      return Some(outcome);
    }

    /** The sweep of a starting supervisor: what it saw dispatched it later marks unknown. */
    method SweepSees() returns (dispatched: bool)
      requires Valid()
      modifies github`trace, github`request
      ensures Valid() && github.request == RequestAfter(old(github.request), github.state, SweepRead)
      ensures dispatched <==> record == Some(Dispatched)
      ensures dispatched ==> github.request.sweeps == old(github.request.sweeps) + 1
    {
      github.Note(SweepRead);
      return record == Some(Dispatched);
    }

    method SweepMarks(dispatched: bool)
      requires Valid() && (dispatched ==> github.request.sweeps > 0)
      modifies this, github`trace, github`request
      ensures Valid()
      ensures dispatched ==> github.request == RequestAfter(old(github.request), github.state, SweepWrite)
      ensures record == if dispatched then Some(Unknown) else old(record)
    {
      if dispatched {
        github.Note(SweepWrite);
        record := Some(Unknown);
      }
    }
  }
}
