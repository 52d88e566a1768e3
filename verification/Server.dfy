/** One report request: validation, the retry loop around fetch, mutate and update, the answer
    and the metric, with other writers in between and any call failing. */
module Server {
  import opened Text
  import opened Ledger
  import opened Api
  import opened Rollout

  /** What becomes of an update: it works, it fails, or it works but the answer is lost. */
  datatype Fate = Works | Fails | AnswerLost

  /** What happens to one attempt: the version its fetch returns (never one from the future),
      what others write before its update arrives, and which calls fail. */
  datatype Attempt = Attempt(getFails: bool, read: nat, meanwhile: seq<Option<Obj>>, update: Fate)

  datatype Outcome = Accepted | Unanswered | NotFound | Refused

  datatype Code = OK | BadRequest | InternalServerError

  predicate IsCommit(out: Outcome) {
    out.Accepted? || out.Unanswered?
  }

  /** Every version of the profile, oldest first. */
  function Log(c: Cell<Option<Obj>>): seq<Option<Obj>> {
    c.past + [c.now]
  }

  /** Others' writes, one version each. */
  function Others(c: Cell<Option<Obj>>, writes: seq<Option<Obj>>): Cell<Option<Obj>> {
    if writes == [] then c else Others(c, writes[..|writes| - 1]).Push(writes[|writes| - 1])
  }

  lemma {:induction false} OthersLog(c: Cell<Option<Obj>>, writes: seq<Option<Obj>>)
    ensures Log(Others(c, writes)) == Log(c) + writes
  {
    if writes != [] {
      OthersLog(c, writes[..|writes| - 1]);
      assert writes == writes[..|writes| - 1] + [writes[|writes| - 1]];
    }
  }

  function VersionRead(c: Cell<Option<Obj>>, turn: Attempt): nat {
    if turn.read < |c.past| then turn.read else |c.past|
  }

  function Recorded(kind: Kind, o: Obj, report: Report): Obj {
    o.(status := o.status.(book := Record(kind, o.status.book, report)))
  }

  /** One attempt; no outcome means a conflict. */
  function Tried(kind: Kind, report: Report, c: Cell<Option<Obj>>, turn: Attempt): (Option<Outcome>, Cell<Option<Obj>>) {
    var at := VersionRead(c, turn);
    if turn.getFails then (Some(Refused), c)
    else if c.At(at).None? then (Some(NotFound), c)
    else
      Updated(kind, report, Others(c, turn.meanwhile), at, c.At(at).value, turn.update)
  }

  /** The update of an attempt that fetched version `at`. */
  function Updated(kind: Kind, report: Report, d: Cell<Option<Obj>>, at: nat, o: Obj, update: Fate): (Option<Outcome>, Cell<Option<Obj>>) {
    if update.Fails? || (update.AnswerLost? && at != |d.past|) then (Some(Refused), d)
    else if at == |d.past| then
      (Some(if update.Works? then Accepted else Unanswered), d.Push(Some(Recorded(kind, o, report))))
    else if d.now.None? then (Some(NotFound), d)
    else (None, d)
  }

  /** The attempts, until one of them has an outcome. */
  function TriedAll(kind: Kind, report: Report, c: Cell<Option<Obj>>, turns: seq<Attempt>): (Outcome, Cell<Option<Obj>>)
    decreases |turns|
  {
    if turns == [] then (Refused, c)
    else match Tried(kind, report, c, turns[0])
      case (Some(out), d) => (out, d)
      case (None, d) => TriedAll(kind, report, d, turns[1..])
  }

  class ReportServer {
    const kind: Kind
    var profile: Cell<Option<Obj>>
    var metric: multiset<string>

    constructor (kind: Kind, profile: Cell<Option<Obj>>)
      ensures this.kind == kind && this.profile == profile && metric == multiset{}
    {
      this.kind := kind;
      this.profile := profile;
      metric := multiset{};
    }

    /** `applyReport` and `applyScriptReport`: fetch, mutate and update, again after a conflict. */
    method ApplyReport(report: Report, turns: seq<Attempt>) returns (outcome: Outcome)
      requires |turns| == 5
      modifies `profile
      ensures (outcome, profile) == TriedAll(kind, report, old(profile), turns)
    {
      for k := 0 to MAX_ATTEMPTS
        invariant TriedAll(kind, report, profile, turns[k..]) == TriedAll(kind, report, old(profile), turns)
      {
        var turn := turns[k];
        assert turns[k..][0] == turn && turns[k..][1..] == turns[k + 1..];
        if turn.getFails {
          return Refused;
        }
        var at := VersionRead(profile, turn);
        var fetched := profile.At(at);
        if fetched.None? {
          return NotFound;
        }
        var o := fetched.value;
        var status := new ProfileStatus(kind, o.status.book);
        status.RecordReport(report);
        var book := Book(status.nodeStatuses, status.appliedNodes, status.failedNodes, status.erroredPods);
        profile := Others(profile, turn.meanwhile);
        if turn.update.Fails? || (turn.update.AnswerLost? && at != |profile.past|) {
          return Refused;
        }
        if at == |profile.past| {
          profile := profile.Push(Some(o.(status := o.status.(book := book))));
          return if turn.update.Works? then Accepted else Unanswered;
        }
        if profile.now.None? {
          return NotFound;
        }
      }
      return Refused;
    }

    /** `handleReport`, after decoding. */
    method HandleReport(report: Report, turns: seq<Attempt>) returns (code: Code)
      requires |turns| == 5
      modifies this
      ensures code.BadRequest? <==> report.node == ""
      ensures code.BadRequest? ==> profile == old(profile) && metric == old(metric)
      ensures !code.BadRequest? ==>
                var (outcome, after) := TriedAll(kind, report, old(profile), turns);
                && profile == after
                && (code.OK? <==> outcome.Accepted? || outcome.NotFound?)
                && metric == old(metric) + (if outcome.Accepted? && !report.success then multiset{report.node} else multiset{})
    {
      if report.node == "" {
        return BadRequest;
      }
      var outcome := ApplyReport(report, turns);
      if !outcome.Accepted? {
        return if outcome.NotFound? then OK else InternalServerError;
      }
      if !report.success {
        metric := metric + multiset{report.node};
      }
      return OK;
    }
  }

  // ---------- What the loop guarantees ----------

  /** What others wrote during the first attempts. */
  function Writes(turns: seq<Attempt>): seq<Option<Obj>> {
    if turns == [] then [] else turns[0].meanwhile + Writes(turns[1..])
  }

  /** The history is what was there before, and exactly if the report was committed one more
      version at its end, which records the report once, in the version right before it. */
  predicate Ends(kind: Kind, report: Report, committed: bool, before: seq<Option<Obj>>, log: seq<Option<Obj>>) {
    if committed
    then before != [] && before[|before| - 1].Some?
         && log == before + [Some(Recorded(kind, before[|before| - 1].value, report))]
    else log == before
  }

  /** What others write during an attempt. */
  function During(c: Cell<Option<Obj>>, turn: Attempt): seq<Option<Obj>> {
    if turn.getFails || c.At(VersionRead(c, turn)).None? then [] else turn.meanwhile
  }

  lemma TriedLog(kind: Kind, report: Report, c: Cell<Option<Obj>>, turn: Attempt)
    ensures var (out, d) := Tried(kind, report, c, turn);
            Ends(kind, report, out.Some? && IsCommit(out.value), Log(c) + During(c, turn), Log(d))
  {
    OthersLog(c, turn.meanwhile);
    var d := Others(c, turn.meanwhile);
    assert Log(d)[|d.past|] == d.now;
    if VersionRead(c, turn) == |d.past| {
      assert |Log(d)| == |Log(c)| + |turn.meanwhile|;
      assert turn.meanwhile == [];
    }
  }

  /** However the attempts go, nobody's write is overwritten: after the history come others'
      writes of a first part of the attempts, then the committed report if there is one. */
  lemma {:induction false} ReportRecordedOnce(kind: Kind, report: Report, c: Cell<Option<Obj>>, turns: seq<Attempt>) returns (k: nat)
    decreases |turns|
    ensures k <= |turns|
    ensures var (out, d) := TriedAll(kind, report, c, turns);
            Ends(kind, report, IsCommit(out), Log(c) + Writes(turns[..k]), Log(d))
  {
    if turns == [] {
      k := 0;
    } else {
      var (out, d) := Tried(kind, report, c, turns[0]);
      TriedLog(kind, report, c, turns[0]);
      if out.None? {
        var j := ReportRecordedOnce(kind, report, d, turns[1..]);
        k := j + 1;
        WritesCons(turns, j);
        assert Log(c) + Writes(turns[..k]) == Log(d) + Writes(turns[1..][..j]);
      } else {
        k := if During(c, turns[0]) == [] then 0 else 1;
        WritesCons(turns, 0);
        assert During(c, turns[0]) == Writes(turns[..k]);
      }
    }
  }

  lemma WritesCons(turns: seq<Attempt>, j: nat)
    requires j < |turns|
    ensures Writes(turns[..j + 1]) == turns[0].meanwhile + Writes(turns[1..][..j])
  {
    assert turns[..j + 1][1..] == turns[1..][..j];
  }

  /** Where a handler of the protocol stands after an attempt. */
  function HandlerAfter(out: Option<Outcome>, left: nat): Handler {
    match out
    case Some(Accepted) => Committed
    case Some(Unanswered) => Lost
    case Some(NotFound) => Ignored
    case Some(Refused) => GaveUp
    case None => if left <= 1 then GaveUp else Fetching(left - 1)
  }

  /** One attempt as steps of the protocol: a fetch and a commit with others' writes in between;
      a call that fails or goes unanswered ends the handler there. */
  function AttemptSteps(p: Params, s: State, r: nat, turn: Attempt): State
    requires r < |s.rep.runs| && r in s.rep.handlers && s.rep.handlers[r].Fetching?
  {
    if turn.getFails then DealNext(p, s, Crash(r))
    else
      var fetched := DealNext(p, s, Fetch(r, VersionRead(s.profile, turn)));
      if fetched.rep.handlers[r].Ignored? then fetched
      else AnsweredSteps(p, fetched.(profile := Others(fetched.profile, turn.meanwhile)), r, turn.update)
  }

  /** The update's part of an attempt. */
  function AnsweredSteps(p: Params, met: State, r: nat, update: Fate): State
    requires r < |met.rep.runs| && r in met.rep.handlers && met.rep.handlers[r].Writing?
  {
    if update.Fails? || !DealEnabled(met, Commit(r)) then DealNext(p, met, Crash(r))
    else
      var done := DealNext(p, met, Commit(r));
      if !update.AnswerLost? then done
      else if done.rep.handlers[r].Committed? then DealNext(p, done, Crash(r))
      else DealNext(p, met, Crash(r))
  }

  /** What an attempt comes to once its fetch has found an object. */
  lemma AnsweredIsCommit(p: Params, met: State, r: nat, update: Fate)
    requires r < |met.rep.runs| && r in met.rep.handlers && met.rep.handlers[r].Writing?
    requires met.profile.At(met.rep.handlers[r].at).Some? && met.rep.handlers[r].at <= |met.profile.past|
    ensures var h, report := met.rep.handlers[r], met.rep.runs[r].report;
            var (out, c) := Updated(p.kind, report, met.profile, h.at, met.profile.At(h.at).value, update);
            var t := AnsweredSteps(p, met, r, update);
            && t.profile == c
            && t.rep.handlers[r] == HandlerAfter(out, h.left)
            && t.rep.commits == met.rep.commits + (if out.Some? && IsCommit(out.value) then [r] else [])
  {
  }

  /** Every attempt of the loop, whatever its calls do, is a fetch and a commit of the protocol,
      with a crash of the handler before or after the commit where a call gave no answer: the same
      versions, the same outcome, and the report among the commits exactly if it was committed. */
  lemma AttemptIsFetchAndCommit(p: Params, s: State, r: nat, turn: Attempt)
    requires r < |s.rep.runs| && r in s.rep.handlers && s.rep.handlers[r].Fetching?
    ensures var (out, c) := Tried(p.kind, s.rep.runs[r].report, s.profile, turn);
            var t := AttemptSteps(p, s, r, turn);
            && t.profile == c
            && t.rep.handlers[r] == HandlerAfter(out, s.rep.handlers[r].left)
            && t.rep.commits == s.rep.commits + (if out.Some? && IsCommit(out.value) then [r] else [])
  {
    var at := VersionRead(s.profile, turn);
    OthersKeep(s.profile, turn.meanwhile, at);
    if !turn.getFails && s.profile.At(at).Some? {
      var fetched := DealNext(p, s, Fetch(r, at));
      AnsweredIsCommit(p, fetched.(profile := Others(fetched.profile, turn.meanwhile)), r, turn.update);
    }
  }

  lemma OthersKeep(c: Cell<Option<Obj>>, writes: seq<Option<Obj>>, at: nat)
    requires at <= |c.past|
    ensures Others(c, writes).At(at) == c.At(at) && at <= |Others(c, writes).past|
  {
    OthersLog(c, writes);
    var d := Others(c, writes);
    assert Log(d)[at] == Log(c)[at];
  }

  // ---------- The whole loop ----------

  /** The update of this attempt would not meet the version it fetched. */
  predicate Stale(c: Cell<Option<Obj>>, turn: Attempt) {
    turn.read < |c.past| || turn.meanwhile != []
  }

  predicate Finds(c: Cell<Option<Obj>>, turn: Attempt) {
    !turn.getFails && c.At(turn.read).Some?
  }

  /** The attempt ends in a conflict: an object was fetched, something was written since, and there
      still is an object to update. */
  predicate Conflicts(c: Cell<Option<Obj>>, turn: Attempt) {
    Finds(c, turn) && turn.update.Works? && Stale(c, turn) && Others(c, turn.meanwhile).now.Some?
  }

  /** What others leave after some attempts. */
  function CellAfter(c: Cell<Option<Obj>>, turns: seq<Attempt>): Cell<Option<Obj>>
    decreases |turns|
  {
    if turns == [] then c else CellAfter(Others(c, turns[0].meanwhile), turns[1..])
  }

  predicate AllConflict(c: Cell<Option<Obj>>, turns: seq<Attempt>)
    decreases |turns|
  {
    turns == [] || (Conflicts(c, turns[0]) && AllConflict(Others(c, turns[0].meanwhile), turns[1..]))
  }

  lemma {:induction false} CellAfterLog(c: Cell<Option<Obj>>, turns: seq<Attempt>)
    decreases |turns|
    ensures Log(CellAfter(c, turns)) == Log(c) + Writes(turns)
  {
    if turns != [] {
      OthersLog(c, turns[0].meanwhile);
      CellAfterLog(Others(c, turns[0].meanwhile), turns[1..]);
    }
  }

  lemma ReadIsVersion(c: Cell<Option<Obj>>, turn: Attempt)
    ensures c.At(VersionRead(c, turn)) == c.At(turn.read)
    ensures VersionRead(c, turn) != |Others(c, turn.meanwhile).past| <==> Stale(c, turn)
  {
    OthersLog(c, turn.meanwhile);
    assert |Log(Others(c, turn.meanwhile))| == |Log(c)| + |turn.meanwhile|;
  }

  /** An attempt leaves the loop going exactly on a conflict; otherwise its outcome is read off. */
  lemma AttemptEnds(kind: Kind, report: Report, c: Cell<Option<Obj>>, turn: Attempt)
    ensures Tried(kind, report, c, turn).0.None? <==> Conflicts(c, turn)
    ensures Tried(kind, report, c, turn).0.None? ==> Tried(kind, report, c, turn).1 == Others(c, turn.meanwhile)
    ensures !Conflicts(c, turn) ==> EndsAs(c, turn, Tried(kind, report, c, turn).0.value)
  {
    ReadIsVersion(c, turn);
  }

  /** How an attempt that is no conflict ends. */
  predicate EndsAs(c: Cell<Option<Obj>>, turn: Attempt, out: Outcome) {
    && (out.Accepted? <==> Finds(c, turn) && !Stale(c, turn) && turn.update.Works?)
    && (out.Unanswered? <==> Finds(c, turn) && !Stale(c, turn) && turn.update.AnswerLost?)
    && (out.Refused? <==> turn.getFails ||
                          (Finds(c, turn) && (turn.update.Fails? || (turn.update.AnswerLost? && Stale(c, turn)))))
    && (out.NotFound? <==> !turn.getFails && (c.At(turn.read).None? ||
                                              (turn.update.Works? && Stale(c, turn) && Others(c, turn.meanwhile).now.None?)))
  }

  /** The loop goes on as long as its attempts conflict and ends with the first that does not, as
      that one ends; it gives up for conflicts only after the last attempt. */
  lemma {:induction false} LoopEnds(kind: Kind, report: Report, c: Cell<Option<Obj>>, turns: seq<Attempt>) returns (k: nat)
    decreases |turns|
    ensures k <= |turns| && AllConflict(c, turns[..k])
    ensures var out := TriedAll(kind, report, c, turns).0;
            var e := CellAfter(c, turns[..k]);
            if k == |turns| then out.Refused? else !Conflicts(e, turns[k]) && EndsAs(e, turns[k], out)
  {
    if turns == [] {
      k := 0;
    } else {
      AttemptEnds(kind, report, c, turns[0]);
      if Conflicts(c, turns[0]) {
        var j := LoopEnds(kind, report, Others(c, turns[0].meanwhile), turns[1..]);
        k := j + 1;
        assert turns[..k][0] == turns[0] && turns[..k][1..] == turns[1..][..j];
      } else {
        k := 0;
      }
    }
  }

  /** After fewer than five conflicts, an attempt that reads the current version and is not disturbed
      commits: the versions are the old ones, what the others wrote, and then the one with the report. */
  lemma {:induction false} RetrySucceeds(kind: Kind, report: Report, c: Cell<Option<Obj>>, turns: seq<Attempt>, k: nat)
    requires k < |turns| && AllConflict(c, turns[..k])
    requires Finds(CellAfter(c, turns[..k]), turns[k]) && !Stale(CellAfter(c, turns[..k]), turns[k]) && turns[k].update.Works?
    decreases k
    ensures var (out, d) := TriedAll(kind, report, c, turns);
            out == Accepted && Ends(kind, report, true, Log(c) + Writes(turns[..k]), Log(d))
  {
    AttemptEnds(kind, report, c, turns[0]);
    if k == 0 {
      TriedLog(kind, report, c, turns[0]);
      assert During(c, turns[0]) == Writes(turns[..0]);
    } else {
      var e := Others(c, turns[0].meanwhile);
      assert turns[..k][0] == turns[0] && turns[..k][1..] == turns[1..][..k - 1];
      RetrySucceeds(kind, report, e, turns[1..], k - 1);
      WritesOnTop(c, turns, k);
    }
  }

  lemma WritesOnTop(c: Cell<Option<Obj>>, turns: seq<Attempt>, k: nat)
    requires 0 < k <= |turns|
    ensures Log(c) + Writes(turns[..k]) == Log(Others(c, turns[0].meanwhile)) + Writes(turns[1..][..k - 1])
  {
    OthersLog(c, turns[0].meanwhile);
    WritesCons(turns, k - 1);
  }

  /** The handler's steps for the attempts, as long as it has to fetch again. */
  function LoopSteps(p: Params, s: State, r: nat, turns: seq<Attempt>): (t: State)
    requires r < |s.rep.runs| && r in s.rep.handlers
    ensures r in t.rep.handlers
    decreases |turns|
  {
    if turns == [] || !s.rep.handlers[r].Fetching? then s
    else
      var t := AttemptSteps(p, s, r, turns[0]);
      StepsKeepRuns(p, s, r, turns[0]);
      LoopSteps(p, t, r, turns[1..])
  }

  lemma StepsKeepRuns(p: Params, s: State, r: nat, turn: Attempt)
    requires r < |s.rep.runs| && r in s.rep.handlers && s.rep.handlers[r].Fetching?
    ensures var t := AttemptSteps(p, s, r, turn); t.rep.runs == s.rep.runs && r in t.rep.handlers
  {
  }

  /** The whole loop is the protocol's handler from its first fetch on: the same versions, the same
      end, and the report among the commits exactly if it was committed. */
  lemma {:induction false} LoopIsHandler(p: Params, s: State, r: nat, turns: seq<Attempt>)
    requires r < |s.rep.runs| && r in s.rep.handlers && turns != [] && s.rep.handlers[r] == Fetching(|turns|)
    ensures var (out, c) := TriedAll(p.kind, s.rep.runs[r].report, s.profile, turns);
            var t := LoopSteps(p, s, r, turns);
            && t.profile == c
            && t.rep.handlers[r] == HandlerAfter(Some(out), 0)
            && t.rep.commits == s.rep.commits + (if IsCommit(out) then [r] else [])
    decreases |turns|
  {
    var t := AttemptSteps(p, s, r, turns[0]);
    AttemptIsFetchAndCommit(p, s, r, turns[0]);
    StepsKeepRuns(p, s, r, turns[0]);
    var (out, c) := Tried(p.kind, s.rep.runs[r].report, s.profile, turns[0]);
    if out.None? && |turns| > 1 {
      LoopIsHandler(p, t, r, turns[1..]);
    } else {
      assert LoopSteps(p, t, r, turns[1..]) == t;
    }
  }
}
