/** The approval machine of scripts/run_research.py: the `campaign` commands run,
    approve-next-generation, stop and resume act on one persisted state record. */
module CampaignApproval {
  import opened Optional
  import opened PythonText

  datatype Json = Null | Bool(b: bool) | Int(n: int) | Str(s: string) | Obj(fields: map<string, Json>)

  /** The persisted record; an absent key reads as null, as with `dict.get`. */
  datatype Record = Record(status: Json, reason: Json, campaignPath: Json, completedCount: Json, dataPaths: Json,
                           pendingGeneration: Json, requestedMax: Json, decision: Json, proposalHash: Json,
                           proposalId: Json, reviewer: Json, resumedFrom: Json)

  const NOTHING := Record(Null, Null, Null, Null, Null, Null, Null, Null, Null, Null, Null, Null)

  /** What the campaign engine did with a launch request. */
  datatype Outcome = NotStarted | Crashed | Finished(status: string)

  datatype Proposal = Proposal(hash: string, id: Json, generation: string)

  /** A command with its arguments and what its surroundings answered. */
  datatype Command =
    | Run(manual: bool, requested: int, campaign: string, data: map<string, string>,
          outcome: Outcome, completed: int, next: Option<Proposal>)
    | Approve(proposal: Option<Proposal>, expectedHash: string, decision: string, reviewer: string, reason: string)
    | Stop(reason: string)
    | Resume(outcome: Outcome)

  /** One executed command: whether it wrote the state record, and the number of generations
      it launched the engine for, if it did. */
  datatype Entry = Entry(command: Command, wrote: bool, launched: Option<int>)

  datatype World = World(file: Option<Record>, log: seq<Entry>)

  const EMPTY := World(None, [])
  const PENDING := "pending_human_approval"
  const APPROVED := "approved_next_generation"

  function Load(file: Option<Record>): Record { if file.None? then NOTHING else file.value }

  /** `_write_campaign_state`; the time stamp is left out. */
  function Written(status: string, reason: string, extra: Record): Record {
    extra.(reason := Str(reason), status := Str(status))
  }

  function Texts(data: map<string, string>): map<string, Json> { map k | k in data :: Str(data[k]) }

  // ---------------------------------------------------------------- the commands

  predicate RecordsPending(cmd: Command)
    requires cmd.Run?
  {
    cmd.manual && cmd.requested > 1 && cmd.outcome == Finished("accepted") && cmd.next.Some?
  }

  function PendingRecord(cmd: Command): Record
    requires cmd.Run? && RecordsPending(cmd)
  {
    Written(PENDING, "next generation requires human approval",
            NOTHING.(campaignPath := Str(cmd.campaign), completedCount := Int(cmd.completed),
                     dataPaths := Obj(Texts(cmd.data)), pendingGeneration := Str(cmd.next.value.generation),
                     proposalHash := Str(cmd.next.value.hash), requestedMax := Int(cmd.requested)))
  }

  /** The fields a decision carries over from the record it replaces. */
  function Kept(state: Record): Record {
    NOTHING.(campaignPath := state.campaignPath, completedCount := state.completedCount,
             dataPaths := state.dataPaths, pendingGeneration := state.pendingGeneration,
             requestedMax := state.requestedMax)
  }

  predicate Decides(cmd: Command)
    requires cmd.Approve?
  {
    cmd.proposal.Some? && cmd.proposal.value.hash == cmd.expectedHash
  }

  function DecisionRecord(state: Record, cmd: Command): Record
    requires cmd.Approve? && Decides(cmd)
  {
    Written(if cmd.decision == "approved" then APPROVED else "rejected", cmd.reason,
            Kept(state).(decision := Str(cmd.decision), proposalHash := Str(cmd.proposal.value.hash),
                         proposalId := cmd.proposal.value.id, reviewer := Str(cmd.reviewer)))
  }

  predicate NonBlankText(value: Json) { value.Str? && !IsBlank(value.s) }

  predicate PositiveInt(value: Json) { value.Int? && value.n >= 1 }

  predicate DataPaths(value: Json) {
    value.Obj? && value.fields != map[] && forall k :: k in value.fields ==> value.fields[k].Str?
  }

  /** Everything `resume` checks before it loads and launches the campaign. */
  predicate Resumable(state: Record) {
    && state.status == Str(APPROVED)
    && NonBlankText(state.campaignPath)
    && DataPaths(state.dataPaths)
    && PositiveInt(state.requestedMax)
    && NonBlankText(state.proposalId) && NonBlankText(state.proposalHash)
    && state.decision == Str("approved")
    && NonBlankText(state.reviewer) && NonBlankText(state.reason)
  }

  function ResumedRecord(state: Record, status: string): Record {
    Written(status, "operator resumed approved generation",
            NOTHING.(campaignPath := state.campaignPath, resumedFrom := state.pendingGeneration,
                     requestedMax := state.requestedMax))
  }

  function Execute(w: World, cmd: Command): (r: World)
    ensures |r.log| == |w.log| + 1 && w.log <= r.log && r.log[|w.log|].command == cmd
  {
    var state := Load(w.file);
    match cmd
    case Run(manual, requested, _, _, outcome, _, _) =>
      var generations := if manual && requested > 1 then 1 else requested;
      var launched := if outcome.NotStarted? then None else Some(generations);
      if RecordsPending(cmd)
      then World(Some(PendingRecord(cmd)), w.log + [Entry(cmd, true, launched)])
      else World(w.file, w.log + [Entry(cmd, false, launched)])
    case Approve(_, _, _, _, _) =>
      if Decides(cmd)
      then World(Some(DecisionRecord(state, cmd)), w.log + [Entry(cmd, true, None)])
      else World(w.file, w.log + [Entry(cmd, false, None)])
    case Stop(reason) =>
      World(Some(Written("stopped", reason, NOTHING)), w.log + [Entry(cmd, true, None)])
    case Resume(outcome) =>
      if !Resumable(state) || outcome.NotStarted? then World(w.file, w.log + [Entry(cmd, false, None)])
      else
        var launched := Some(state.requestedMax.n);
        if outcome.Crashed? then World(w.file, w.log + [Entry(cmd, false, launched)])
        else World(Some(ResumedRecord(state, outcome.status)), w.log + [Entry(cmd, true, launched)])
  }

  function ExecuteAll(commands: seq<Command>): World {
    if commands == [] then EMPTY
    else Execute(ExecuteAll(commands[..|commands| - 1]), commands[|commands| - 1])
  }

  // ---------------------------------------------------------------- what the record remembers

  /** The command that wrote the record last. */
  ghost function LastWriter(log: seq<Entry>): Option<Command> {
    if log == [] then None
    else if log[|log| - 1].wrote then Some(log[|log| - 1].command)
    else LastWriter(log[..|log| - 1])
  }

  /** The manual run whose pending state only decisions have rewritten since. */
  ghost function PendingRun(log: seq<Entry>): Option<Command> {
    if log == [] then None
    else
      var e, before := log[|log| - 1], log[..|log| - 1];
      if !e.wrote || e.command.Approve? then PendingRun(before)
      else if e.command.Run? then Some(e.command)
      else None
  }

  ghost predicate RemembersRun(state: Record, run: Option<Command>) {
    if run.None? then state.dataPaths == Null
    else
      && run.value.Run? && RecordsPending(run.value)
      && state.dataPaths == Obj(Texts(run.value.data))
      && state.campaignPath == Str(run.value.campaign)
      && state.requestedMax == Int(run.value.requested)
      && state.completedCount == Int(run.value.completed)
      && state.pendingGeneration == Str(run.value.next.value.generation)
  }

  ghost predicate RemembersWriter(state: Record, writer: Option<Command>) {
    match writer
    case None => state == NOTHING
    case Some(cmd) =>
      match cmd
      case Run(_, _, _, _, _, _, next) =>
        && next.Some? && state.status == Str("pending_human_approval") && state.proposalHash == Str(next.value.hash)
        && state.decision == Null && state.proposalId == Null && state.reviewer == Null
      case Approve(_, _, decision, reviewer, reason) =>
        && Decides(cmd) && state.decision == Str(decision)
        && state.status == Str(if decision == "approved" then "approved_next_generation" else "rejected")
        && state.reviewer == Str(reviewer) && state.reason == Str(reason)
        && state.proposalId == cmd.proposal.value.id
        && state.proposalHash == Str(cmd.proposal.value.hash)
      case Stop(reason) => state == NOTHING.(status := Str("stopped"), reason := Str(reason))
      case Resume(outcome) =>
        && outcome.Finished? && state.status == Str(outcome.status)
        && state.dataPaths == Null && state.decision == Null && state.pendingGeneration == Null
  }

  ghost predicate Remembers(w: World) {
    RemembersRun(Load(w.file), PendingRun(w.log)) && RemembersWriter(Load(w.file), LastWriter(w.log))
  }

  lemma ExecuteRemembers(w: World, cmd: Command)
    requires Remembers(w)
    ensures Remembers(Execute(w, cmd))
  {
    var r := Execute(w, cmd);
    var e := r.log[|w.log|];
    assert r.log == w.log + [e];
    WriterAppend(w.log, e);
    match cmd
    case Run(_, _, _, _, _, _, _) =>
    case Approve(_, _, _, _, _) =>
    case Stop(_) =>
    case Resume(_) =>
  }

  lemma WriterAppend(log: seq<Entry>, e: Entry)
    ensures LastWriter(log + [e]) == if e.wrote then Some(e.command) else LastWriter(log)
    ensures PendingRun(log + [e]) == if !e.wrote || e.command.Approve? then PendingRun(log)
                                     else if e.command.Run? then Some(e.command) else None
  {
    assert (log + [e])[..|log|] == log;
  }

  /** In every history the record remembers its last writer and the run it belongs to. */
  lemma {:induction false} HistoryRemembered(commands: seq<Command>)
    ensures Remembers(ExecuteAll(commands)) && |ExecuteAll(commands).log| == |commands|
  {
    if commands != [] {
      HistoryRemembered(commands[..|commands| - 1]);
      ExecuteRemembers(ExecuteAll(commands[..|commands| - 1]), commands[|commands| - 1]);
    }
  }

  lemma {:induction false} LogMatches(commands: seq<Command>, i: nat)
    requires i < |commands|
    ensures |ExecuteAll(commands).log| == |commands| && ExecuteAll(commands).log[i].command == commands[i]
  {
    var n := |commands| - 1;
    HistoryRemembered(commands[..n]);
    if i < n {
      LogMatches(commands[..n], i);
    }
  }

  lemma {:induction false} LastWriterIndex(log: seq<Entry>) returns (i: nat)
    requires LastWriter(log).Some?
    ensures i < |log| && log[i].wrote && log[i].command == LastWriter(log).value
    ensures forall j :: i < j < |log| ==> !log[j].wrote
  {
    i := |log| - 1;
    if !log[i].wrote {
      i := LastWriterIndex(log[..i]);
    }
  }

  lemma {:induction false} PendingRunIndex(log: seq<Entry>) returns (i: nat)
    requires PendingRun(log).Some?
    ensures i < |log| && log[i].wrote && log[i].command.Run? && log[i].command == PendingRun(log).value
    ensures forall j :: i < j < |log| && log[j].wrote ==> log[j].command.Approve?
  {
    i := |log| - 1;
    if !log[i].wrote || log[i].command.Approve? {
      i := PendingRunIndex(log[..i]);
    }
  }

  /** An approval in full: every part that the approval record requires is there. */
  ghost predicate FullApproval(cmd: Command) {
    && cmd.Approve? && Decides(cmd) && cmd.decision == "approved"
    && NonBlankText(cmd.proposal.value.id) && !IsBlank(cmd.proposal.value.hash)
    && !IsBlank(cmd.reviewer) && !IsBlank(cmd.reason)
  }

  /** Does `resume`, issued after these commands, launch the engine? */
  ghost predicate ResumeLaunches(commands: seq<Command>, outcome: Outcome) {
    var w := ExecuteAll(commands);
    Execute(w, Resume(outcome)).log[|w.log|].launched.Some?
  }

  /** Command `p` is a manual run that recorded a pending state, command `a` a full approval, the last to write the
      record; since the run only decisions wrote it. */
  ghost predicate LeadsTo(commands: seq<Command>, p: nat, a: nat) {
    var log := ExecuteAll(commands).log;
    && p < a < |commands| == |log|
    && commands[p].Run? && RecordsPending(commands[p]) && log[p].wrote
    && FullApproval(commands[a]) && log[a].wrote
    && (forall i :: p < i < |commands| && log[i].wrote ==> commands[i].Approve?)
    && (forall i :: a < i < |commands| ==> !log[i].wrote)
  }

  /** That history, with a launch for the run's number of generations and a record of the approved proposal. */
  ghost predicate LaunchedBy(commands: seq<Command>, outcome: Outcome, p: nat, a: nat) {
    var w := ExecuteAll(commands);
    && LeadsTo(commands, p, a)
    && Execute(w, Resume(outcome)).log[|w.log|].launched == Some(commands[p].requested)
    && Load(w.file).proposalHash == Str(commands[a].proposal.value.hash)
  }

  /** Every launch by `resume` was asked for by a manual run, for that run's number of generations,
      and the record was last written by a full approval; between the run and the launch only
      decisions wrote the record. */
  lemma ResumeLaunchHistory(commands: seq<Command>, outcome: Outcome)
    requires ResumeLaunches(commands, outcome)
    ensures exists p: nat, a: nat :: LaunchedBy(commands, outcome, p, a)
  {
    var p, a := LaunchIndices(commands, outcome);
  }

  lemma ResumableMeans(w: World)
    requires Remembers(w) && Resumable(Load(w.file))
    ensures var writer, run, state := LastWriter(w.log), PendingRun(w.log), Load(w.file);
            && writer.Some? && FullApproval(writer.value)
            && state.proposalHash == Str(writer.value.proposal.value.hash)
            && run.Some? && run.value.Run? && RecordsPending(run.value)
            && state.requestedMax == Int(run.value.requested)
  {
  }

  lemma LaunchIndices(commands: seq<Command>, outcome: Outcome) returns (p: nat, a: nat)
    requires ResumeLaunches(commands, outcome)
    ensures LaunchedBy(commands, outcome, p, a)
  {
    var w := ExecuteAll(commands);
    HistoryRemembered(commands);
    ResumableMeans(w);
    a := LastWriterIndex(w.log);
    p := PendingRunIndex(w.log);
    forall i | 0 <= i < |commands| ensures w.log[i].command == commands[i] {
      LogMatches(commands, i);
    }
  }

  /** The record that a resume can launch from names the proposal of the pending run exactly when the approval was
      given with that run's hash: nothing else compares the two. */
  lemma LaunchIsForRecordedIff(commands: seq<Command>, p: nat, a: nat)
    requires LeadsTo(commands, p, a)
    ensures Load(ExecuteAll(commands).file).proposalHash == Str(commands[p].next.value.hash)
       <==> commands[a].expectedHash == commands[p].next.value.hash
  {
    HistoryRemembered(commands);
    LogMatches(commands, a);
    LastWriterIs(ExecuteAll(commands).log, a);
  }

  lemma {:induction false} LastWriterIs(log: seq<Entry>, a: nat)
    requires a < |log| && log[a].wrote && forall i :: a < i < |log| ==> !log[i].wrote
    ensures LastWriter(log) == Some(log[a].command)
  {
    if a < |log| - 1 {
      LastWriterIs(log[..|log| - 1], a);
    }
  }

  /** Any full approval lets a resume launch what a manual run left pending, whatever proposal it is of. */
  lemma AnyApprovalLaunches(run: Command, approve: Command, outcome: Outcome)
    requires run.Run? && RecordsPending(run) && run.data != map[] && !IsBlank(run.campaign)
    requires FullApproval(approve) && !outcome.NotStarted?
    ensures ResumeLaunches([run, approve], outcome)
    ensures Load(ExecuteAll([run, approve]).file).proposalHash == Str(approve.proposal.value.hash)
  {
    assert [run, approve][..1] == [run] && [run][..0] == [];
    assert ExecuteAll([run]).file == Some(PendingRecord(run));
    var state := Load(ExecuteAll([run, approve]).file);
    assert state == DecisionRecord(PendingRecord(run), approve);
    var key :| key in run.data;
    assert key in Texts(run.data);
    assert Resumable(state);
  }

  /** A manual run records the proposal `a`, proposal `b` is approved, and the resume launches. */
  lemma AnotherProposalLaunches() returns (commands: seq<Command>)
    ensures |commands| == 2 && commands[0].Run? && commands[0].next == Some(Proposal("a", Str("a"), "1"))
    ensures ResumeLaunches(commands, Crashed) && Load(ExecuteAll(commands).file).proposalHash == Str("b")
  {
    var run := Run(true, 2, "c", map["es" := "d"], Finished("accepted"), 1, Some(Proposal("a", Str("a"), "1")));
    var approve := Approve(Some(Proposal("b", Str("b"), "1")), "b", "approved", "r", "r");
    assert "es" in run.data;
    assert 'b' in "b" && 'c' in "c" && 'r' in "r";
    AnyApprovalLaunches(run, approve, Crashed);
    commands := [run, approve];
  }

  lemma {:induction false} LogPrefix(first: seq<Command>, more: seq<Command>)
    ensures ExecuteAll(first).log <= ExecuteAll(first + more).log
    ensures |ExecuteAll(first).log| == |first|
  {
    if more == [] {
      assert first + more == first;
      HistoryRemembered(first);
    } else {
      var n := |more| - 1;
      LogPrefix(first, more[..n]);
      assert (first + more)[..|first| + n] == first + more[..n];
    }
  }

  /** A command that drops the pending run: a stop, or a resume that wrote its state. */
  ghost predicate Halts(before: seq<Command>, halt: Command) {
    var w := ExecuteAll(before);
    halt.Stop? || (halt.Resume? && Execute(w, halt).log[|w.log|].wrote)
  }

  /** After a `stop`, or a `resume` that wrote its state, no `resume` launches the engine until a
      manual run has recorded a pending state again. */
  lemma NoLaunchUntilPendingAgain(before: seq<Command>, halt: Command, after: seq<Command>, outcome: Outcome)
    requires Halts(before, halt)
    requires forall i :: 0 <= i < |after| && after[i].Run? ==> !RecordsPending(after[i])
    ensures !ResumeLaunches(before + [halt] + after, outcome)
  {
    var commands := before + [halt] + after;
    HaltIsLogged(before, halt, after);
    forall i | |before| < i < |commands| && commands[i].Run? ensures !RecordsPending(commands[i]) {
      assert commands[i] == after[i - |before| - 1];
    }
    if ResumeLaunches(commands, outcome) {
      ResumeLaunchHistory(commands, outcome);
    }
  }

  lemma HaltIsLogged(before: seq<Command>, halt: Command, after: seq<Command>)
    requires Halts(before, halt)
    ensures var log := ExecuteAll(before + [halt] + after).log;
            |log| > |before| && log[|before|].wrote && (before + [halt] + after)[|before|] == halt
  {
    LogPrefix(before + [halt], after);
    LogPrefix(before, [halt]);
    assert (before + [halt])[..|before|] == before;
  }

  /** Only an automatic run, or a resume with that history, launches more than one generation. */
  lemma WhoLaunchesManyGenerations(commands: seq<Command>, cmd: Command)
    requires var w := ExecuteAll(commands);
             var launched := Execute(w, cmd).log[|w.log|].launched;
             launched.Some? && launched.value > 1
    ensures (cmd.Run? && !cmd.manual)
         || (cmd.Resume? && exists p: nat, a: nat :: LeadsTo(commands, p, a))
  {
    if cmd.Resume? {
      ResumeLaunchHistory(commands, cmd.outcome);
    }
  }

  lemma {:induction false} PendingRunIs(log: seq<Entry>, p: nat)
    requires p < |log| && log[p].wrote && log[p].command.Run?
    requires forall i :: p < i < |log| && log[i].wrote ==> log[i].command.Approve?
    ensures PendingRun(log) == Some(log[p].command)
  {
    if p < |log| - 1 {
      PendingRunIs(log[..|log| - 1], p);
    }
  }

  /** The record a finished resume leaves: the engine's status, and the campaign, the number of generations and the
      generation of the run it goes back to. */
  lemma ResumedRecordIs(commands: seq<Command>, outcome: Outcome, p: nat, a: nat)
    requires LaunchedBy(commands, outcome, p, a) && outcome.Finished?
    ensures var state := Load(Execute(ExecuteAll(commands), Resume(outcome)).file);
            && state.status == Str(outcome.status) && state.campaignPath == Str(commands[p].campaign)
            && state.requestedMax == Int(commands[p].requested)
            && state.resumedFrom == Str(commands[p].next.value.generation)
  {
    var log := ExecuteAll(commands).log;
    HistoryRemembered(commands);
    forall i | p < i < |log| && log[i].wrote ensures log[i].command.Approve? {
      LogMatches(commands, i);
    }
    LogMatches(commands, p);
    PendingRunIs(log, p);
  }

  /** Which commands write the record: an accepted manual run of several generations with a next proposal, a decision
      on a proposal with the expected hash, a stop, and a resume of a resumable record whose launch finished. */
  lemma WritesIff(w: World, cmd: Command)
    ensures Execute(w, cmd).log[|w.log|].wrote <==>
              match cmd
              case Run(manual, requested, _, _, outcome, _, next) =>
                manual && requested >= 2 && outcome == Finished("accepted") && next != None
              case Approve(proposal, expected, _, _, _) => proposal.Some? && proposal.value.hash == expected
              case Stop(_) => true
              case Resume(outcome) => Resumable(Load(w.file)) && outcome.Finished?
    ensures !Execute(w, cmd).log[|w.log|].wrote ==> Execute(w, cmd).file == w.file
  {
  }

  /** A run that starts launches one generation when approval is manual, and as many as asked for otherwise; decisions
      and stops launch nothing. */
  lemma LaunchedIs(w: World, cmd: Command)
    ensures var launched := Execute(w, cmd).log[|w.log|].launched;
            && (cmd.Run? ==> launched == if cmd.outcome == NotStarted then None
                                         else Some(if cmd.manual && cmd.requested >= 2 then 1 else cmd.requested))
            && (cmd.Approve? || cmd.Stop? ==> launched == None)
  {
  }

  /** A resume can be repeated exactly when the first one launched the engine and it failed. */
  lemma RelaunchIff(commands: seq<Command>, first: Outcome, second: Outcome)
    requires ResumeLaunches(commands, first) && !second.NotStarted?
    ensures ResumeLaunches(commands + [Resume(first)], second) <==> first.Crashed?
  {
    assert (commands + [Resume(first)])[..|commands|] == commands;
  }

  // ---------------------------------------------------------------- the command line tool

  /** One output root with its state record. */
  class Campaign {
    var file: Option<Record>
    ghost var log: seq<Entry>

    ghost function View(): World
      reads this
    {
      World(file, log)
    }

    ghost predicate Valid()
      reads this
    {
      Remembers(View())
    }

    constructor ()
      ensures Valid() && View() == EMPTY
    {
      file, log := None, [];
    }

    method WriteState(status: string, reason: string, extra: Record)
      modifies this`file
      ensures file == Some(Written(status, reason, extra))
    {
      file := Some(extra.(status := Str(status), reason := Str(reason)));
    }

    method RunCampaign(cmd: Command) returns (launched: Option<int>)
      requires Valid() && cmd.Run?
      modifies this
      ensures Valid() && View() == Execute(old(View()), cmd)
      ensures |log| > 0 && launched == log[|log| - 1].launched
    {
      ExecuteRemembers(View(), cmd);
      var generations := cmd.requested;
      if cmd.manual && cmd.requested > 1 {
        generations := 1;
      }
      launched := None;
      var wrote := false;
      if !cmd.outcome.NotStarted? {
        launched := Some(generations);
        if cmd.outcome == Finished("accepted") && cmd.manual && cmd.requested > 1 && cmd.next.Some? {
          WriteState(PENDING, "next generation requires human approval",
                     NOTHING.(campaignPath := Str(cmd.campaign), completedCount := Int(cmd.completed),
                              dataPaths := Obj(Texts(cmd.data)), pendingGeneration := Str(cmd.next.value.generation),
                              proposalHash := Str(cmd.next.value.hash), requestedMax := Int(cmd.requested)));
          wrote := true;
        }
      }
      log := log + [Entry(cmd, wrote, launched)];
    }

    method ApproveNextGeneration(cmd: Command) returns (decided: bool)
      requires Valid() && cmd.Approve?
      modifies this
      ensures Valid() && View() == Execute(old(View()), cmd)
      ensures decided == Decides(cmd)
    {
      ExecuteRemembers(View(), cmd);
      decided := cmd.proposal.Some? && cmd.proposal.value.hash == cmd.expectedHash;
      if decided {
        var state := Load(file);
        var extra := NOTHING.(campaignPath := state.campaignPath, completedCount := state.completedCount,
          dataPaths := state.dataPaths, pendingGeneration := state.pendingGeneration,
          requestedMax := state.requestedMax, decision := Str(cmd.decision),
          proposalHash := Str(cmd.proposal.value.hash), proposalId := cmd.proposal.value.id,
          reviewer := Str(cmd.reviewer));
        WriteState(if cmd.decision == "approved" then APPROVED else "rejected", cmd.reason, extra);
      }
      log := log + [Entry(cmd, decided, None)];
    }

    method StopCampaign(reason: string)
      requires Valid()
      modifies this
      ensures Valid() && View() == Execute(old(View()), Stop(reason))
    {
      ExecuteRemembers(View(), Stop(reason));
      WriteState("stopped", reason, NOTHING);
      log := log + [Entry(Stop(reason), true, None)];
    }

    method ResumeCampaign(outcome: Outcome) returns (launched: Option<int>)
      requires Valid()
      modifies this
      ensures Valid() && View() == Execute(old(View()), Resume(outcome))
      ensures |log| > 0 && launched == log[|log| - 1].launched
    {
      ExecuteRemembers(View(), Resume(outcome));
      var state := Load(file);
      launched := None;
      var wrote := false;
      if Resumable(state) && !outcome.NotStarted? {
        launched := Some(state.requestedMax.n);
        if outcome.Finished? {
          WriteState(outcome.status, "operator resumed approved generation",
                     NOTHING.(campaignPath := state.campaignPath, resumedFrom := state.pendingGeneration,
                              requestedMax := state.requestedMax));
          wrote := true;
        }
      }
      log := log + [Entry(Resume(outcome), wrote, launched)];
    }
  }
}
