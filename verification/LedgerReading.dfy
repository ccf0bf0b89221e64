/** How `comcmd/kernel/workflow.py` rebuilds a task's state from the ledger's events. */
module LedgerReading {
  import opened Records
  import opened Aggregation
  import opened Protocol

  predicate MarksSuccess(e: Event, t: TaskId) {
    e.task == t && e.payload.StepSucceeded?
  }

  /** `_completed_steps`. */
  function CompletedSteps(events: seq<Event>, t: TaskId): set<string> {
    set i | 0 <= i < |events| && MarksSuccess(events[i], t) :: events[i].payload.step
  }

  /** `_recorded_artifacts`: of several events for a step the last one counts. */
  function RecordedArtifacts(events: seq<Event>, t: TaskId): map<string, Artifact> {
    if events == [] then map[]
    else
      var before, e := RecordedArtifacts(events[..|events| - 1], t), events[|events| - 1];
      if MarksSuccess(e, t) then before[e.payload.step := e.payload.artifact] else before
  }

  /** `_task_exists`. */
  predicate TaskExists(events: seq<Event>, t: TaskId) {
    exists i :: 0 <= i < |events| && events[i].task == t && events[i].payload.TaskCreated?
  }

  /** `_recorded_inputs`: those of the first task_created event. */
  function RecordedInputs(events: seq<Event>, t: TaskId): Inputs {
    if events == [] then map[]
    else if events[0].task == t && events[0].payload.TaskCreated? then events[0].payload.inputs
    else RecordedInputs(events[1..], t)
  }

  lemma {:induction false} InputsOfSnoc(events: seq<Event>, e: Event, t: TaskId)
    ensures RecordedInputs(events + [e], t) ==
      if TaskExists(events, t) then RecordedInputs(events, t)
      else if e.task == t && e.payload.TaskCreated? then e.payload.inputs else map[]
  {
    if events == [] {
      assert [e][1..] == [] && events + [e] == [e];
    } else {
      assert (events + [e])[1..] == events[1..] + [e];
      InputsOfSnoc(events[1..], e, t);
      if TaskExists(events, t) && !(events[0].task == t && events[0].payload.TaskCreated?) {
        var i :| 0 <= i < |events| && events[i].task == t && events[i].payload.TaskCreated?;
        assert events[1..][i - 1] == events[i];
      }
      if TaskExists(events[1..], t) {
        var i :| 0 <= i < |events[1..]| && events[1..][i].task == t && events[1..][i].payload.TaskCreated?;
        assert events[i + 1] == events[1..][i];
      }
    }
  }

  lemma CompletedSnoc(events: seq<Event>, e: Event, t: TaskId)
    ensures CompletedSteps(events + [e], t)
         == CompletedSteps(events, t) + if MarksSuccess(e, t) then {e.payload.step} else {}
  {
    var all := events + [e];
    forall s | s in CompletedSteps(events, t) ensures s in CompletedSteps(all, t) {
      var i :| 0 <= i < |events| && MarksSuccess(events[i], t) && events[i].payload.step == s;
      assert MarksSuccess(all[i], t);
    }
    if MarksSuccess(e, t) {
      assert MarksSuccess(all[|events|], t);
    }
  }

  lemma ExistsSnoc(events: seq<Event>, e: Event, t: TaskId)
    ensures TaskExists(events + [e], t) <==> TaskExists(events, t) || (e.task == t && e.payload.TaskCreated?)
  {
    var all := events + [e];
    if TaskExists(events, t) {
      var i :| 0 <= i < |events| && events[i].task == t && events[i].payload.TaskCreated?;
      assert all[i] == events[i];
    }
    if e.task == t && e.payload.TaskCreated? {
      assert all[|events|] == e;
    }
  }

  lemma {:induction false} ArtifactsReadBack(tr: Trace, t: TaskId)
    ensures RecordedArtifacts(Log(tr), t) == Recorded(tr, t)
  {
    if tr.Then? {
      ArtifactsReadBack(tr.before, t);
      assert tr.act.Emit? ==> Log(tr)[..|Log(tr)| - 1] == Log(tr.before);
    }
  }

  lemma {:induction false} StepsReadBack(tr: Trace, t: TaskId)
    ensures CompletedSteps(Log(tr), t) == Recorded(tr, t).Keys
  {
    if tr.Then? {
      StepsReadBack(tr.before, t);
      if tr.act.Emit? {
        CompletedSnoc(Log(tr.before), tr.act.event, t);
      }
    }
  }

  lemma {:induction false} CreationReadBack(cfg: Config, tr: Trace, t: TaskId)
    requires Legal(cfg, tr)
    ensures TaskExists(Log(tr), t) <==> Created(tr, t)
    ensures Created(tr, t) ==> RecordedInputs(Log(tr), t) == t.inputs
  {
    if tr.Then? {
      CreationReadBack(cfg, tr.before, t);
      if tr.act.Emit? {
        ExistsSnoc(Log(tr.before), tr.act.event, t);
        InputsOfSnoc(Log(tr.before), tr.act.event, t);
      }
    }
  }

  /** What the runner reads back from the ledger is what the history says was recorded. */
  lemma {:induction false} ReadBack(cfg: Config, tr: Trace, t: TaskId)
    requires Legal(cfg, tr)
    ensures RecordedArtifacts(Log(tr), t) == Recorded(tr, t)
    ensures CompletedSteps(Log(tr), t) == Recorded(tr, t).Keys
    ensures TaskExists(Log(tr), t) <==> Created(tr, t)
    ensures Created(tr, t) ==> RecordedInputs(Log(tr), t) == t.inputs
  {
    ArtifactsReadBack(tr, t);
    StepsReadBack(tr, t);
    CreationReadBack(cfg, tr, t);
  }

  lemma {:induction false} RecordedMeansCreated(cfg: Config, tr: Trace, t: TaskId)
    requires Legal(cfg, tr) && Recorded(tr, t) != map[]
    ensures Created(tr, t)
  {
    if Recorded(tr.before, t) != map[] {
      RecordedMeansCreated(cfg, tr.before, t);
    }
  }
}
