/**
 The five git operations that report their progress on a result channel. Every command is answered by
 an arbitrary oracle; the results and the commands are recorded in the order in which they happen.
 */
module GitOperations {

  datatype Command =
    | LookPathGh | Status | ClaudeMessage | FallbackMessage | AddAll | Commit
    | Checkout | HasOrigin | Fetch | RemoteBranchExists | Divergence | PullFastForward | HasTracking
    | Merge | SquashMerge | ConflictedFiles | CommitSquash
    | PushUpstream | Push | DescribePR | StartGh | WaitGh | LoadTranscript | UploadTranscript

  /** ok: no error. The other fields are read only after the commands that report them. */
  datatype Reply = Reply(ok: bool, yes: bool, ahead: nat, behind: nat, files: seq<string>)

  datatype Call = Call(command: Command, reply: Reply)

  /** What goes over the channel, without its text. */
  datatype Result = Result(done: bool, failed: bool, conflicts: seq<string>)

  const PROGRESS := Result(false, false, [])
  const SUCCESS := Result(true, false, [])
  const FAILURE := Result(true, true, [])

  // ---- What the consumer of the channel may rely on ----

  /** Only progress so far. */
  predicate InProgress(rs: seq<Result>) {
    forall i | 0 <= i < |rs| :: rs[i] == PROGRESS
  }

  /** Exactly one final result, the last one; conflicts only together with an error. */
  predicate Finished(rs: seq<Result>) {
    rs != [] && InProgress(rs[..|rs| - 1]) && rs[|rs| - 1].done
    && (rs[|rs| - 1].conflicts != [] ==> rs[|rs| - 1].failed)
  }

  predicate Succeeded(rs: seq<Result>) {
    Finished(rs) && !rs[|rs| - 1].failed
  }

  predicate Failed(rs: seq<Result>) {
    Finished(rs) && rs[|rs| - 1].failed
  }

  /** Failed, and not by conflicts. */
  predicate FailedPlainly(rs: seq<Result>) {
    Failed(rs) && rs[|rs| - 1].conflicts == []
  }

  /** There is one final result, it is the last, and errors and conflicts come with no other. */
  lemma FinishedHasOneDone(rs: seq<Result>, i: nat)
    requires Finished(rs) && i < |rs|
    ensures rs[i].done <==> i == |rs| - 1
    ensures rs[i].failed || rs[i].conflicts != [] ==> rs[i].done
  {
    if i < |rs| - 1 { assert rs[..|rs| - 1][i] == PROGRESS; }
  }

  // ---- The monitor ----

  /** The worktree, as far as the replies tell. */
  datatype Work = Unchecked | Dirty | Staged | Clean

  /** The local default branch against its counterpart on the remote; Fetched is not yet compared. */
  datatype Remote = Unasked | Stale | Unfetched | Fetched | CaughtUp | Behind | Diverged

  /** Requested: gh was started, and its end is not known yet. */
  datatype Outcome = Nothing | Squashed | Merged | Pushed | Requested | Published

  /**
   What the commands and their replies amount to. blocked: a reply came after which the operation cannot go
   on, clashed: a merge failed. lawful: every command so far was permitted where it was issued.
   */
  datatype Watch = Watch(
    work: Work, onTarget: bool, remote: Remote, outcome: Outcome, blocked: bool, clashed: bool, lawful: bool)

  /** Merging into the default branch: it has to be checked out and compared with the remote. */
  const IN_REPOSITORY := Watch(Unchecked, false, Unasked, Nothing, false, false, true)

  /** Working in a worktree that is on its branch already; no remote branch is compared. */
  const IN_WORKTREE := Watch(Unchecked, true, CaughtUp, Nothing, false, false, true)

  /** Committed or clean, the target checked out, and nothing known about the remote that stands against it. */
  predicate MayMerge(w: Watch) {
    w.work.Clean? && w.onTarget && w.remote.CaughtUp? && w.outcome.Nothing? && !w.blocked
  }

  predicate IsMerge(c: Command) {
    c.Merge? || c.SquashMerge?
  }

  predicate MergeFails(c: Call) {
    IsMerge(c.command) && !c.reply.ok
  }

  /** After a blocking reply only the conflicts of a merge that failed may still be asked for. */
  predicate Permitted(w: Watch, c: Command) {
    if w.blocked then c.ConflictedFiles? && w.clashed
    else match c
      case ConflictedFiles => false
      case Merge => MayMerge(w)
      case SquashMerge => MayMerge(w)
      case CommitSquash => w.outcome.Squashed?
      case Status => w.work.Unchecked?
      case AddAll => w.work.Dirty?
      case Commit => w.work.Staged?
      case HasOrigin => w.remote.Unasked?
      case Fetch => w.remote.Stale?
      case RemoteBranchExists => w.remote.Unfetched?
      case Divergence => w.remote.Fetched?
      case PullFastForward => w.remote.Behind?
      case PushUpstream => w.work.Clean?
      case Push => w.work.Clean?
      case StartGh => w.outcome.Pushed?
      case WaitGh => w.outcome.Requested?
      case _ => true
  }

  function NextWork(w: Work, c: Call): Work {
    match c.command
    case Status => if !c.reply.ok then w else if c.reply.yes then Dirty else Clean
    case AddAll => if c.reply.ok then Staged else w
    case Commit => if c.reply.ok then Clean else w
    case _ => w
  }

  function NextRemote(r: Remote, c: Call): Remote {
    match c.command
    case HasOrigin => if c.reply.yes then Stale else CaughtUp
    case Fetch => if c.reply.ok then Fetched else Unfetched
    case RemoteBranchExists => if c.reply.yes then Unfetched else CaughtUp
    case Divergence =>
      if !c.reply.ok || c.reply.behind == 0 then CaughtUp else if c.reply.ahead > 0 then Diverged else Behind
    case PullFastForward => if c.reply.ok then CaughtUp else r
    case _ => r
  }

  function NextOutcome(o: Outcome, c: Call): Outcome {
    if !c.reply.ok then o
    else if c.command.Merge? || c.command.CommitSquash? then Merged
    else if c.command.SquashMerge? then Squashed
    else if c.command.PushUpstream? || c.command.Push? then Pushed
    else if c.command.StartGh? then Requested
    else if c.command.WaitGh? then Published
    else o
  }

  /** Questions whose answers change nothing that is watched. */
  const QUESTIONS: set<Command> := {
    ClaudeMessage, HasTracking, ConflictedFiles, DescribePR, LoadTranscript, UploadTranscript
  }

  /** The replies after which an operation gives up. */
  predicate Blocks(c: Call) {
    if c.command.RemoteBranchExists? then c.reply.yes
    else if c.command.Divergence? then c.reply.ok && c.reply.ahead > 0 && c.reply.behind > 0
    else !c.reply.ok && !c.command.HasOrigin? && !c.command.Fetch? && c.command !in QUESTIONS
  }

  function Observe(w: Watch, c: Call): Watch {
    Watch(NextWork(w.work, c), w.onTarget || (c.command.Checkout? && c.reply.ok), NextRemote(w.remote, c),
          NextOutcome(w.outcome, c), w.blocked || Blocks(c), w.clashed || MergeFails(c),
          w.lawful && Permitted(w, c.command))
  }

  function ObserveAll(w: Watch, calls: seq<Call>): Watch {
    if calls == [] then w else Observe(ObserveAll(w, calls[..|calls| - 1]), calls[|calls| - 1])
  }

  lemma ObserveSnoc(w: Watch, calls: seq<Call>, c: Call)
    ensures ObserveAll(w, calls + [c]) == Observe(ObserveAll(w, calls), c)
  {
    assert (calls + [c])[..|calls|] == calls;
  }

  /** What the watch learns from the commands that concern the remote. */
  lemma RemoteObserved(w: Watch, c: Call)
    requires c.command in {HasOrigin, Fetch, RemoteBranchExists, Divergence, PullFastForward}
    requires !w.blocked && w.lawful && Permitted(w, c.command)
    ensures Observe(w, c) == w.(remote := NextRemote(w.remote, c), blocked := Blocks(c))
  {
  }

  /** What it learns from gh, and from a push or a merge. */
  lemma OutcomeObserved(w: Watch, c: Call)
    requires c.command in {StartGh, WaitGh, Push, PushUpstream, Merge, SquashMerge, CommitSquash}
    requires !w.blocked && w.lawful && Permitted(w, c.command)
    ensures Observe(w, c)
            == w.(outcome := NextOutcome(w.outcome, c), blocked := !c.reply.ok, clashed := w.clashed || MergeFails(c))
  {
  }

  /** A merge clashed exactly when some merge was answered with an error. */
  lemma {:induction false} ClashedExactlyWhen(w: Watch, calls: seq<Call>)
    ensures ObserveAll(w, calls).clashed <==> w.clashed || exists k | 0 <= k < |calls| :: MergeFails(calls[k])
  {
    if calls != [] {
      hide Permitted, NextWork, NextRemote, NextOutcome, Blocks, MergeFails;
      var n := |calls| - 1;
      ClashedExactlyWhen(w, calls[..n]);
      if k :| 0 <= k < |calls| && MergeFails(calls[k]) && k < n { assert MergeFails(calls[..n][k]); }
    }
  }

  /**
   A merge that fails is followed by the question for its conflicts and nothing else, and the final result names
   exactly the files of the reply; a result of any other run names none.
   */
  predicate ConflictsTold(calls: seq<Call>, rs: seq<Result>)
    requires rs != []
  {
    && (forall k | 0 <= k < |calls| && MergeFails(calls[k]) ::
          && k == |calls| - 2 && calls[k + 1].command.ConflictedFiles?
          && rs[|rs| - 1].conflicts == if calls[k + 1].reply.ok then calls[k + 1].reply.files else [])
    && ((forall k | 0 <= k < |calls| :: !MergeFails(calls[k])) ==> rs[|rs| - 1].conflicts == [])
  }

  /** The last command is this one, and it succeeded. */
  predicate EndsIn(calls: seq<Call>, c: Command) {
    calls != [] && calls[|calls| - 1].command == c && calls[|calls| - 1].reply.ok
  }

  lemma NoClashNoConflicts(w: Watch, calls: seq<Call>, rs: seq<Result>)
    requires !ObserveAll(w, calls).clashed && rs != [] && rs[|rs| - 1].conflicts == []
    ensures ConflictsTold(calls, rs)
  {
    ClashedExactlyWhen(w, calls);
  }

  lemma ClashTold(w: Watch, before: seq<Call>, merge: Call, question: Call, rs: seq<Result>)
    requires !ObserveAll(w, before).clashed && MergeFails(merge) && question.command.ConflictedFiles? && rs != []
    requires rs[|rs| - 1].conflicts == if question.reply.ok then question.reply.files else []
    ensures ConflictsTold(before + [merge, question], rs)
  {
    ClashedExactlyWhen(w, before);
    var calls, n := before + [merge, question], |before|;
    assert calls[n] == merge && calls[n + 1] == question;
    assert forall k | 0 <= k < n :: calls[k] == before[k];
  }

  // ---- The operations ----

  /** One run of an operation: its own channel, its commands, and the oracle that answers them. */
  class Operation {
    const oracle: nat -> Reply
    const start: Watch
    var calls: seq<Call>
    var results: seq<Result>
    ghost var watch: Watch

    ghost predicate Valid()
      reads this
    {
      watch == ObserveAll(start, calls)
    }

    ghost predicate Ready(w: Watch)
      reads this
    {
      Valid() && watch == start == w && calls == [] && results == []
    }

    constructor (oracle: nat -> Reply, start: Watch)
      ensures Ready(start) && this.start == start && this.oracle == oracle
    {
      this.oracle, this.start, calls, results, watch := oracle, start, [], [], start;
    }

    method Execute(command: Command) returns (r: Reply)
      requires Valid()
      modifies this`calls, this`watch
      ensures Valid() && r == oracle(|old(calls)|) && calls == old(calls) + [Call(command, r)]
      ensures watch == Observe(old(watch), Call(command, r))
    {
      hide Observe;
      r := oracle(|calls|);
      ObserveSnoc(start, calls, Call(command, r));
      calls := calls + [Call(command, r)];
      watch := Observe(watch, Call(command, r));
    }

    method Ask(question: Command) returns (r: Reply)
      requires Valid() && watch.lawful && question in QUESTIONS && Permitted(watch, question)
      modifies this`calls, this`watch
      ensures Valid() && r == oracle(|old(calls)|) && calls == old(calls) + [Call(question, r)]
      ensures watch == old(watch)
    {
      hide ObserveAll;
      r := Execute(question);
    }

    method Progress()
      requires InProgress(results)
      modifies this`results
      ensures InProgress(results) && |results| == |old(results)| + 1
    {
      results := results + [PROGRESS];
    }

    method Succeed()
      requires InProgress(results)
      modifies this`results
      ensures Succeeded(results) && |results| == |old(results)| + 1
    {
      results := results + [SUCCESS];
      assert results[..|results| - 1] == old(results);
    }

    method Fail(conflicts: seq<string>)
      requires InProgress(results)
      modifies this`results
      ensures Failed(results) && |results| == |old(results)| + 1 && results[|old(results)|].conflicts == conflicts
      ensures conflicts == [] ==> FailedPlainly(results)
    {
      results := results + [Result(true, true, conflicts)];
      assert results[..|results| - 1] == old(results);
    }

    /** CommitAll: stage everything, then commit. */
    method CommitAll() returns (ok: bool)
      requires Valid() && !watch.blocked && watch.lawful && watch.work.Dirty?
      modifies this`calls, this`watch
      ensures Valid() && watch.lawful && ok == !watch.blocked && (ok ==> watch.work.Clean?)
      ensures watch == old(watch).(work := watch.work, blocked := watch.blocked)
      ensures old(calls) < calls && calls[|old(calls)|].command.AddAll?
      ensures if calls[|old(calls)|].reply.ok then
                |calls| == |old(calls)| + 2 && calls[|calls| - 1].command.Commit? && ok == calls[|calls| - 1].reply.ok
              else |calls| == |old(calls)| + 1 && !ok
    {
      hide ObserveAll;
      var added := Execute(AddAll);
      if !added.ok { return false; }
      var committed := Execute(Commit);
      return committed.ok;
    }

    /** The commit message: the one given, else a generated one, else the fallback. */
    method FindMessage(messageGiven: bool) returns (ok: bool)
      requires Valid() && InProgress(results) && !watch.blocked && watch.lawful
      modifies this`calls, this`results, this`watch
      ensures Valid() && InProgress(results) && ok == !watch.blocked
      ensures watch == old(watch).(blocked := watch.blocked)
      ensures old(calls) <= calls && (messageGiven ==> ok && calls == old(calls))
      ensures !messageGiven ==>
                && |calls| > |old(calls)| && calls[|old(calls)|].command.ClaudeMessage?
                && if calls[|old(calls)|].reply.ok then |calls| == |old(calls)| + 1 && ok
                   else |calls| == |old(calls)| + 2 && calls[|calls| - 1].command.FallbackMessage?
                        && ok == calls[|calls| - 1].reply.ok
    {
      hide ObserveAll, InProgress;
      if messageGiven { return true; }
      Progress();
      var message := Ask(ClaudeMessage);
      if message.ok { return true; }
      message := Execute(FallbackMessage);
      return message.ok;
    }

    /** EnsureCommitted: true exactly when the worktree is clean or everything was committed. */
    method EnsureCommitted(messageGiven: bool) returns (ok: bool)
      requires Valid() && InProgress(results) && watch.work.Unchecked? && !watch.blocked && watch.lawful
      modifies this`calls, this`results, this`watch
      ensures Valid() && watch.lawful && ok == !watch.blocked && (ok ==> watch.work.Clean?)
      ensures if ok then InProgress(results) else FailedPlainly(results)
      ensures watch == old(watch).(work := watch.work, blocked := watch.blocked)
      ensures old(calls) < calls && calls[|old(calls)|].command.Status?
      ensures !calls[|old(calls)|].reply.ok ==> !ok && |calls| == |old(calls)| + 1
      ensures calls[|old(calls)|].reply.ok && !calls[|old(calls)|].reply.yes ==> ok && |calls| == |old(calls)| + 1
      ensures calls[|old(calls)|].reply.ok && calls[|old(calls)|].reply.yes && ok ==> EndsIn(calls, Commit)
    {
      hide ObserveAll, InProgress, FailedPlainly;
      var status := Execute(Status);
      if !status.ok {
        Fail([]);
        return false;
      }
      Progress();
      if !status.yes { return true; }
      ok := FindMessage(messageGiven);
      if ok {
        Progress();
        ok := CommitAll();
      }
      if !ok {
        Fail([]);
        return false;
      }
      Progress();
    }

    /** The fetch succeeded: stop at a divergence, fast-forward when behind. */
    method CatchUp() returns (ok: bool)
      requires Valid() && InProgress(results) && !watch.blocked && watch.lawful && watch.remote.Fetched?
      modifies this`calls, this`results, this`watch
      ensures Valid() && watch.lawful && ok == !watch.blocked && (ok ==> watch.remote.CaughtUp?)
      ensures if ok then InProgress(results) else FailedPlainly(results)
      ensures watch == old(watch).(remote := watch.remote, blocked := watch.blocked)
      ensures old(calls) < calls && calls[|old(calls)|].command.Divergence?
      ensures var d := calls[|old(calls)|].reply;
              if d.ok && d.behind > 0 && d.ahead == 0 then
                && |calls| == |old(calls)| + 2 && calls[|calls| - 1].command.PullFastForward?
                && ok == calls[|calls| - 1].reply.ok
              else |calls| == |old(calls)| + 1 && ok == !(d.ok && d.behind > 0)
    {
      hide ObserveAll, InProgress, FailedPlainly, Observe;
      Progress();
      var d := Execute(Divergence);
      RemoteObserved(old(watch), Call(Divergence, d));
      if !d.ok {
      } else if d.ahead > 0 && d.behind > 0 {
        Fail([]);
        return false;
      } else if d.behind > 0 {
        Progress();
        ghost var before := watch;
        var pull := Execute(PullFastForward);
        RemoteObserved(before, Call(PullFastForward, pull));
        if !pull.ok {
          Fail([]);
          return false;
        }
        Progress();
      } else {
        Progress();
      }
      return true;
    }

    /** syncWithRemote: true exactly when nothing known about the remote stands against the merge. */
    method SyncWithRemote() returns (ok: bool)
      requires Valid() && InProgress(results) && !watch.blocked && watch.lawful && watch.remote.Unasked?
      modifies this`calls, this`results, this`watch
      ensures Valid() && watch.lawful && ok == !watch.blocked && (ok ==> watch.remote.CaughtUp?)
      ensures if ok then InProgress(results) else FailedPlainly(results)
      ensures watch == old(watch).(remote := watch.remote, blocked := watch.blocked)
      ensures old(calls) < calls && calls[|old(calls)|].command.HasOrigin?
      ensures !calls[|old(calls)|].reply.yes ==> ok
      ensures calls[|old(calls)|].reply.yes ==> |calls| > |old(calls)| + 1 && calls[|old(calls)| + 1].command.Fetch?
      ensures calls[|old(calls)|].reply.yes && !calls[|old(calls)| + 1].reply.ok ==>
                && |calls| == |old(calls)| + 3 && calls[|calls| - 1].command.RemoteBranchExists?
                && ok == !calls[|calls| - 1].reply.yes
    {
      hide ObserveAll, InProgress, FailedPlainly, Observe;
      var origin := Execute(HasOrigin);
      RemoteObserved(old(watch), Call(HasOrigin, origin));
      if origin.yes {
        Progress();
        ghost var before := watch;
        var fetched := Execute(Fetch);
        RemoteObserved(before, Call(Fetch, fetched));
        if fetched.ok {
          ok := CatchUp();
          return;
        }
        before := watch;
        var remote := Execute(RemoteBranchExists);
        RemoteObserved(before, Call(RemoteBranchExists, remote));
        if remote.yes {
          Fail([]);
          return false;
        }
        Progress();
      } else {
        var tracking := Ask(HasTracking);
        if !tracking.yes { Progress(); }
      }
      return true;
    }

    /** The report on a merge that failed: its conflicts when there are any. */
    method ReportMergeFailure()
      requires Valid() && InProgress(results) && watch.lawful && watch.blocked && watch.clashed
      modifies this`calls, this`results, this`watch
      ensures Valid() && watch == old(watch) && Failed(results)
      ensures |calls| == |old(calls)| + 1 && calls[..|old(calls)|] == old(calls)
      ensures calls[|calls| - 1].command.ConflictedFiles?
      ensures var r := calls[|calls| - 1].reply;
              results[|results| - 1].conflicts == if r.ok then r.files else []
    {
      hide ObserveAll, InProgress;
      var conflicted := Ask(ConflictedFiles);
      Fail(if conflicted.ok then conflicted.files else []);
    }

    /** Commit the worktree, check out the default branch and catch up with the remote. */
    method PrepareMerge(messageGiven: bool) returns (ok: bool)
      requires Ready(IN_REPOSITORY)
      modifies this`calls, this`results, this`watch
      ensures Valid() && watch.lawful && watch.outcome.Nothing? && ok == MayMerge(watch) && ok == !watch.blocked
      ensures !watch.clashed
      ensures if ok then InProgress(results) else FailedPlainly(results)
      ensures old(calls) <= calls
    {
      hide ObserveAll, FailedPlainly;
      ok := EnsureCommitted(messageGiven);
      hide InProgress;
      if !ok { return; }
      Progress();
      var checkout := Execute(Checkout);
      if !checkout.ok {
        Fail([]);
        return false;
      }
      Progress();
      ok := SyncWithRemote();
    }

    /**
     MergeToMain: every command is permitted where it is issued, there is one final result, and it reports
     success exactly when no reply blocked the operation, which is exactly when the branch was merged.
     */
    method MergeToMain(messageGiven: bool)
      requires Ready(IN_REPOSITORY)
      modifies this`calls, this`results, this`watch
      ensures Finished(results) && ObserveAll(start, calls).lawful
      ensures Succeeded(results) <==> !ObserveAll(start, calls).blocked
      ensures Succeeded(results) <==> ObserveAll(start, calls).outcome == Merged
      ensures ConflictsTold(calls, results) && (Succeeded(results) ==> EndsIn(calls, Merge))
    {
      hide ObserveAll, InProgress, Observe, ConflictsTold;
      var ready := PrepareMerge(messageGiven);
      NoClash();
      if !ready { return; }
      Progress();
      MergeAndReport();
    }

    lemma NoClash()
      requires Valid() && !watch.clashed
      ensures results != [] && results[|results| - 1].conflicts == [] ==> ConflictsTold(calls, results)
    {
      if results != [] && results[|results| - 1].conflicts == [] { NoClashNoConflicts(start, calls, results); }
    }

    /** The merge, its report, and the final result. */
    method MergeAndReport()
      requires Valid() && InProgress(results) && MayMerge(watch) && watch.lawful && !watch.clashed
      modifies this`calls, this`results, this`watch
      ensures Valid() && Finished(results) && watch.lawful && ConflictsTold(calls, results)
      ensures Succeeded(results) <==> !watch.blocked
      ensures Succeeded(results) <==> watch.outcome == Merged
      ensures Succeeded(results) ==> EndsIn(calls, Merge)
    {
      hide ObserveAll, InProgress, Observe, ConflictsTold;
      var merge := Execute(Merge);
      OutcomeObserved(old(watch), Call(Merge, merge));
      if !merge.ok {
        ReportMergeFailure();
        assert calls == old(calls) + [Call(Merge, merge), calls[|calls| - 1]];
        ClashTold(start, old(calls), Call(Merge, merge), calls[|calls| - 1], results);
        return;
      }
      Progress();
      Succeed();
      NoClash();
    }

    /** SquashMergeToMain: as MergeToMain, with the squash and its commit in place of the merge. */
    method SquashMergeToMain(messageGiven: bool)
      requires Ready(IN_REPOSITORY)
      modifies this`calls, this`results, this`watch
      ensures Finished(results) && ObserveAll(start, calls).lawful
      ensures Succeeded(results) <==> !ObserveAll(start, calls).blocked
      ensures Succeeded(results) <==> ObserveAll(start, calls).outcome == Merged
      ensures ConflictsTold(calls, results)
      ensures Succeeded(results) ==> EndsIn(calls, CommitSquash) && EndsIn(calls[..|calls| - 1], SquashMerge)
    {
      hide ObserveAll, InProgress, Observe, ConflictsTold;
      var ready := PrepareMerge(messageGiven);
      NoClash();
      if !ready { return; }
      Progress();
      ghost var w, before := watch, calls;
      var merge := Execute(SquashMerge);
      OutcomeObserved(w, Call(SquashMerge, merge));
      if !merge.ok {
        ReportMergeFailure();
        assert calls == before + [Call(SquashMerge, merge), calls[|calls| - 1]];
        ClashTold(start, before, Call(SquashMerge, merge), calls[|calls| - 1], results);
        return;
      }
      Progress();
      Progress();
      w := watch;
      var commit := Execute(CommitSquash);
      OutcomeObserved(w, Call(CommitSquash, commit));
      NoClash();
      if !commit.ok {
        Fail([]);
        NoClash();
        return;
      }
      Progress();
      Succeed();
      NoClash();
    }

    /** MergeToParent merges in the parent's worktree, which is on the parent's branch already. */
    method MergeToParent(messageGiven: bool)
      requires Ready(IN_WORKTREE)
      modifies this`calls, this`results, this`watch
      ensures Finished(results) && ObserveAll(start, calls).lawful
      ensures Succeeded(results) <==> !ObserveAll(start, calls).blocked
      ensures Succeeded(results) <==> ObserveAll(start, calls).outcome == Merged
      ensures ConflictsTold(calls, results) && (Succeeded(results) ==> EndsIn(calls, Merge))
    {
      hide ObserveAll, Observe, ConflictsTold;
      var committed := EnsureCommitted(messageGiven);
      hide InProgress;
      NoClash();
      if !committed { return; }
      Progress();
      MergeAndReport();
    }

    /** PushUpdates pushes only a committed worktree and succeeds exactly when the push did. */
    method PushUpdates(messageGiven: bool)
      requires Ready(IN_WORKTREE)
      modifies this`calls, this`results, this`watch
      ensures Finished(results) && ObserveAll(start, calls).lawful
      ensures Succeeded(results) <==> !ObserveAll(start, calls).blocked
      ensures Succeeded(results) <==> ObserveAll(start, calls).outcome == Pushed
      ensures ConflictsTold(calls, results) && (Succeeded(results) ==> EndsIn(calls, Push))
    {
      hide ObserveAll, Observe, ConflictsTold;
      var committed := EnsureCommitted(messageGiven);
      hide InProgress;
      NoClash();
      if !committed { return; }
      Progress();
      ghost var w := watch;
      var push := Execute(Push);
      OutcomeObserved(w, Call(Push, push));
      if push.ok {
        Progress();
        Succeed();
      } else {
        Fail([]);
      }
      NoClash();
    }

    /** The best-effort upload of the transcript: it only ever adds progress. */
    method OfferTranscript(sessionGiven: bool)
      requires Valid() && InProgress(results) && watch.lawful && !watch.blocked
      modifies this`calls, this`results, this`watch
      ensures Valid() && InProgress(results) && watch == old(watch)
      ensures old(calls) <= calls && (calls == old(calls) <==> !sessionGiven)
      ensures sessionGiven ==>
                calls[|old(calls)|].command.LoadTranscript?
                && if calls[|old(calls)|].reply.yes then
                     |calls| == |old(calls)| + 2 && calls[|calls| - 1].command.UploadTranscript?
                   else |calls| == |old(calls)| + 1
    {
      hide ObserveAll, InProgress;
      if !sessionGiven { return; }
      var transcript := Ask(LoadTranscript);
      if transcript.yes {
        Progress();
        var upload := Ask(UploadTranscript);
        Progress();
      }
    }

    /** Describe and create the pull request, reporting a failure but not yet the success. */
    method RunGh() returns (ok: bool)
      requires Valid() && InProgress(results) && watch.lawful && !watch.blocked && watch.outcome.Pushed?
      modifies this`calls, this`results, this`watch
      ensures Valid() && watch.lawful && ok == !watch.blocked && ok == watch.outcome.Published?
      ensures if ok then InProgress(results) else FailedPlainly(results)
      ensures old(calls) <= calls && (ok <==> EndsIn(calls, WaitGh))
      ensures ok ==> EndsIn(calls[..|calls| - 1], StartGh)
      ensures watch.clashed == old(watch).clashed
    {
      hide ObserveAll, InProgress, FailedPlainly, Observe;
      Progress();
      var described := Ask(DescribePR);
      Progress();
      var handle := Execute(StartGh);
      OutcomeObserved(old(watch), Call(StartGh, handle));
      if !handle.ok {
        Fail([]);
        return false;
      }
      ghost var before := watch;
      var created := Execute(WaitGh);
      OutcomeObserved(before, Call(WaitGh, created));
      if created.yes { Progress(); }
      if !created.ok {
        Fail([]);
        return false;
      }
      return true;
    }

    /** CreatePR publishes only a pushed branch and succeeds exactly when the pull request was created. */
    method CreatePR(messageGiven: bool, sessionGiven: bool)
      requires Ready(IN_WORKTREE)
      modifies this`calls, this`results, this`watch
      ensures Finished(results) && ObserveAll(start, calls).lawful
      ensures Succeeded(results) <==> !ObserveAll(start, calls).blocked
      ensures Succeeded(results) <==> ObserveAll(start, calls).outcome == Published
      ensures ConflictsTold(calls, results) && calls != [] && calls[0].command.LookPathGh?
      ensures !calls[0].reply.ok ==> |calls| == 1
    {
      hide ObserveAll, ConflictsTold;
      var gh := Execute(LookPathGh);
      if !gh.ok {
        Fail([]);
        NoClash();
        return;
      }
      var committed := EnsureCommitted(messageGiven);
      NoClash();
      hide InProgress, Observe;
      if !committed { return; }
      Progress();
      PublishAndReport(sessionGiven);
    }

    /** The push, the pull request, the transcript, and the final result. */
    method PublishAndReport(sessionGiven: bool)
      requires Valid() && InProgress(results) && watch.lawful && !watch.blocked && !watch.clashed
      requires watch.work.Clean? && watch.outcome.Nothing?
      modifies this`calls, this`results, this`watch
      ensures Valid() && old(calls) <= calls && Finished(results) && watch.lawful && ConflictsTold(calls, results)
      ensures Succeeded(results) <==> !watch.blocked
      ensures Succeeded(results) <==> watch.outcome == Published
    {
      hide ObserveAll, Observe, InProgress, ConflictsTold;
      var push := Execute(PushUpstream);
      OutcomeObserved(old(watch), Call(PushUpstream, push));
      if !push.ok {
        Fail([]);
        NoClash();
        return;
      }
      Progress();
      var created := RunGh();
      NoClash();
      if !created { return; }
      OfferTranscript(sessionGiven);
      Succeed();
      NoClash();
    }
  }

  // ---- What lawful means, in terms of the commands alone ----

  /** A command of this kind was answered without an error. */
  predicate WasDone(calls: seq<Call>, c: Command) {
    exists i | 0 <= i < |calls| :: calls[i].command == c && calls[i].reply.ok
  }

  predicate ReportedClean(calls: seq<Call>) {
    exists i | 0 <= i < |calls| :: calls[i].command.Status? && calls[i].reply.ok && !calls[i].reply.yes
  }

  predicate CommitsAt(calls: seq<Call>, j: nat)
    requires j < |calls|
  {
    calls[j].command.Commit? && calls[j].reply.ok && WasDone(calls[..j], AddAll)
  }

  /** The worktree had no changes, or what had been staged was committed. */
  predicate WasCommitted(calls: seq<Call>) {
    ReportedClean(calls) || exists j: nat | j < |calls| :: CommitsAt(calls, j)
  }

  predicate ReportsLag(c: Call) {
    c.command.Divergence? && c.reply.ok && c.reply.behind > 0
  }

  /** In a lawful run every command was permitted by what had been observed before it. */
  lemma {:induction false} LawfulMeansPermitted(w: Watch, calls: seq<Call>, k: nat)
    requires ObserveAll(w, calls).lawful && k < |calls|
    ensures Permitted(ObserveAll(w, calls[..k]), calls[k].command) && ObserveAll(w, calls[..k]).lawful
  {
    hide Permitted, NextWork, NextRemote, NextOutcome, Blocks;
    if k < |calls| - 1 {
      assert calls[..|calls| - 1][..k] == calls[..k];
      LawfulMeansPermitted(w, calls[..|calls| - 1], k);
    }
  }

  lemma {:induction false} CleanMeansCommitted(w: Watch, calls: seq<Call>)
    requires ObserveAll(w, calls).work.Clean? && w.work.Unchecked? && ObserveAll(w, calls).lawful
    ensures WasCommitted(calls)
  {
    hide NextRemote, NextOutcome, Blocks, WasDone;
    var n := |calls| - 1;
    var before := calls[..n];
    if ObserveAll(w, before).work.Clean? {
      hide Permitted;
      CleanMeansCommitted(w, before);
      CommittedStays(calls);
    } else if calls[n].command.Commit? {
      StagedMeansAdded(w, before);
      assert CommitsAt(calls, n);
    } else {
      assert calls[n].command.Status?;
    }
  }

  lemma CommittedStays(calls: seq<Call>)
    requires calls != [] && WasCommitted(calls[..|calls| - 1])
    ensures WasCommitted(calls)
  {
    hide WasDone;
    var before := calls[..|calls| - 1];
    if !ReportedClean(before) {
      var j: nat :| j < |before| && CommitsAt(before, j);
      assert before[..j] == calls[..j];
      assert CommitsAt(calls, j);
    }
  }

  lemma {:induction false} StagedMeansAdded(w: Watch, calls: seq<Call>)
    requires ObserveAll(w, calls).work.Staged? && !w.work.Staged?
    ensures WasDone(calls, AddAll)
  {
    hide NextRemote, NextOutcome, Blocks, Permitted;
    var n := |calls| - 1;
    if !(calls[n].command.AddAll? && calls[n].reply.ok) {
      StagedMeansAdded(w, calls[..n]);
    }
  }

  lemma {:induction false} OnTargetMeansCheckedOut(w: Watch, calls: seq<Call>)
    requires ObserveAll(w, calls).onTarget && !w.onTarget
    ensures WasDone(calls, Checkout)
  {
    hide NextWork, NextRemote, NextOutcome, Blocks, Permitted;
    var n := |calls| - 1;
    if !(calls[n].command.Checkout? && calls[n].reply.ok) {
      OnTargetMeansCheckedOut(w, calls[..n]);
    }
  }

  /** A reported lag stays until a fast-forward, and one with divergence stays for good. */
  lemma {:induction false} LagStays(w: Watch, calls: seq<Call>, k: nat)
    requires ObserveAll(w, calls).lawful && k < |calls| && ReportsLag(calls[k])
    ensures calls[k].reply.ahead > 0 ==> ObserveAll(w, calls).blocked
    ensures ObserveAll(w, calls).remote.Behind? || ObserveAll(w, calls).blocked || WasDone(calls[k..], PullFastForward)
  {
    hide NextWork, NextOutcome;
    var n := |calls| - 1;
    if k < n {
      LagStays(w, calls[..n], k);
      if WasDone(calls[..n][k..], PullFastForward) {
        assert forall i | 0 <= i < n - k :: calls[..n][k..][i] == calls[k..][i];
      } else if calls[n].command.PullFastForward? && calls[n].reply.ok {
        assert calls[k..][n - k] == calls[n];
      }
    }
  }

  predicate Fetches(c: Call) {
    c.command.Fetch? && c.reply.ok
  }

  predicate Compared(calls: seq<Call>) {
    exists i | 0 <= i < |calls| :: calls[i].command.Divergence?
  }

  /** What was fetched has to be compared before anything else is known of the remote. */
  lemma {:induction false} FetchIsCompared(w: Watch, calls: seq<Call>, k: nat)
    requires ObserveAll(w, calls).lawful && k < |calls| && Fetches(calls[k])
    ensures ObserveAll(w, calls).remote.Fetched? || Compared(calls[k..])
  {
    hide NextWork, NextOutcome, Blocks;
    var n := |calls| - 1;
    if k < n {
      FetchIsCompared(w, calls[..n], k);
      if Compared(calls[..n][k..]) {
        assert forall i | 0 <= i < n - k :: calls[..n][k..][i] == calls[k..][i];
      } else if calls[n].command.Divergence? {
        assert calls[k..][n - k] == calls[n];
      }
    }
  }

  /** The command was issued. */
  predicate WasAsked(calls: seq<Call>, c: Command) {
    exists i | 0 <= i < |calls| :: calls[i].command == c
  }

  lemma {:induction false} KnownMeansAsked(w: Watch, calls: seq<Call>)
    requires !ObserveAll(w, calls).remote.Unasked? && w.remote.Unasked? && ObserveAll(w, calls).lawful
    ensures WasAsked(calls, HasOrigin)
  {
    hide NextWork, NextOutcome, Blocks;
    var n := |calls| - 1;
    if !calls[n].command.HasOrigin? { KnownMeansAsked(w, calls[..n]); }
  }

  /** An origin that was reported has to be fetched from. */
  lemma {:induction false} OriginIsFetched(w: Watch, calls: seq<Call>, k: nat)
    requires ObserveAll(w, calls).lawful && k < |calls| && calls[k].command.HasOrigin? && calls[k].reply.yes
    ensures ObserveAll(w, calls).remote.Stale? || WasAsked(calls[k..], Fetch)
  {
    hide NextWork, NextOutcome, Blocks;
    var n := |calls| - 1;
    if k < n {
      OriginIsFetched(w, calls[..n], k);
      if WasAsked(calls[..n][k..], Fetch) {
        assert forall i | 0 <= i < n - k :: calls[..n][k..][i] == calls[k..][i];
      } else if calls[n].command.Fetch? {
        assert calls[k..][n - k] == calls[n];
      }
    }
  }

  predicate FetchFails(c: Call) {
    c.command.Fetch? && !c.reply.ok
  }

  /** The remote was reported not to have the branch. */
  predicate ReportedMissing(calls: seq<Call>) {
    exists i | 0 <= i < |calls| :: calls[i].command.RemoteBranchExists? && !calls[i].reply.yes
  }

  /** A fetch that failed is excused only by a branch that is not on the remote. */
  lemma {:induction false} FailedFetchIsExcused(w: Watch, calls: seq<Call>, k: nat)
    requires ObserveAll(w, calls).lawful && k < |calls| && FetchFails(calls[k])
    ensures ObserveAll(w, calls).remote.Unfetched? || ReportedMissing(calls[k..])
  {
    hide NextWork, NextOutcome, Blocks;
    var n := |calls| - 1;
    if k < n {
      FailedFetchIsExcused(w, calls[..n], k);
      if ReportedMissing(calls[..n][k..]) {
        assert forall i | 0 <= i < n - k :: calls[..n][k..][i] == calls[k..][i];
      } else if calls[n].command.RemoteBranchExists? && !calls[n].reply.yes {
        assert calls[k..][n - k] == calls[n];
      }
    }
  }

  /**
   Before every merge into the default branch the worktree was reported clean or was committed, the checkout
   succeeded, the origin was asked for, and, when there is one, fetched from; a fetch that failed was excused by a
   missing remote branch, a successful one was followed by a comparison, and every report of a lag was without
   divergence and followed by a fast-forward.
   */
  lemma MergesAreSafe(calls: seq<Call>, m: nat, k: nat)
    requires ObserveAll(IN_REPOSITORY, calls).lawful && m < |calls| && IsMerge(calls[m].command)
    ensures WasCommitted(calls[..m]) && WasDone(calls[..m], Checkout) && WasAsked(calls[..m], HasOrigin)
    ensures k < m && calls[k].command.HasOrigin? && calls[k].reply.yes ==> WasAsked(calls[k..m], Fetch)
    ensures k < m && FetchFails(calls[k]) ==> ReportedMissing(calls[k..m])
    ensures k < m && ReportsLag(calls[k]) ==>
              calls[k].reply.ahead == 0 && WasDone(calls[k..m], PullFastForward)
    ensures k < m && Fetches(calls[k]) ==> Compared(calls[k..m])
  {
    hide WasDone, WasCommitted, Compared, Observe, WasAsked, ReportedMissing;
    var before := calls[..m];
    LawfulMeansPermitted(IN_REPOSITORY, calls, m);
    CleanMeansCommitted(IN_REPOSITORY, before);
    OnTargetMeansCheckedOut(IN_REPOSITORY, before);
    KnownMeansAsked(IN_REPOSITORY, before);
    if k < m {
      assert before[k] == calls[k] && before[k..] == calls[k..m];
      if ReportsLag(calls[k]) { LagStays(IN_REPOSITORY, before, k); }
      if Fetches(calls[k]) { FetchIsCompared(IN_REPOSITORY, before, k); }
      if FetchFails(calls[k]) { FailedFetchIsExcused(IN_REPOSITORY, before, k); }
      if calls[k].command.HasOrigin? && calls[k].reply.yes { OriginIsFetched(IN_REPOSITORY, before, k); }
    }
  }

  predicate IsPush(c: Command) {
    c.Push? || c.PushUpstream?
  }

  /** The commands that an outcome stands for have succeeded. */
  predicate Achieved(calls: seq<Call>, o: Outcome) {
    match o
    case Nothing => true
    case Squashed => WasDone(calls, SquashMerge)
    case Merged => WasDone(calls, Merge) || (WasDone(calls, SquashMerge) && WasDone(calls, CommitSquash))
    case Pushed => WasDone(calls, Push) || WasDone(calls, PushUpstream)
    case Requested => (WasDone(calls, Push) || WasDone(calls, PushUpstream)) && WasDone(calls, StartGh)
    case Published =>
      (WasDone(calls, Push) || WasDone(calls, PushUpstream)) && WasDone(calls, StartGh) && WasDone(calls, WaitGh)
  }

  lemma DoneStays(calls: seq<Call>, c: Command)
    requires calls != []
    ensures WasDone(calls[..|calls| - 1], c) ==> WasDone(calls, c)
    ensures calls[|calls| - 1].reply.ok && calls[|calls| - 1].command == c ==> WasDone(calls, c)
  {
    var n := |calls| - 1;
    if i :| 0 <= i < n && calls[..n][i].command == c && calls[..n][i].reply.ok {
      assert calls[i].command == c;
    }
  }

  lemma AchievedStays(calls: seq<Call>, w: Watch)
    requires calls != [] && Achieved(calls[..|calls| - 1], w.outcome)
    requires Permitted(w, calls[|calls| - 1].command)
    ensures Achieved(calls, NextOutcome(w.outcome, calls[|calls| - 1]))
  {
    hide WasDone;
    DoneStays(calls, SquashMerge);
    DoneStays(calls, Merge);
    DoneStays(calls, CommitSquash);
    DoneStays(calls, Push);
    DoneStays(calls, PushUpstream);
    DoneStays(calls, StartGh);
    DoneStays(calls, WaitGh);
  }

  /** The outcome is what the commands did, each kind after the one it needs. */
  lemma {:induction false} OutcomeWasDone(w: Watch, calls: seq<Call>)
    requires ObserveAll(w, calls).lawful && w.outcome.Nothing?
    ensures Achieved(calls, ObserveAll(w, calls).outcome)
  {
    if calls != [] {
      hide NextWork, NextRemote, NextOutcome, Blocks, Achieved, Permitted;
      var n := |calls| - 1;
      OutcomeWasDone(w, calls[..n]);
      AchievedStays(calls, ObserveAll(w, calls[..n]));
    }
  }

  /** Only a committed worktree is pushed, and a pull request is asked for only after a push, awaited once begun. */
  lemma PushesAreSafe(calls: seq<Call>, m: nat)
    requires ObserveAll(IN_WORKTREE, calls).lawful && m < |calls|
    ensures IsPush(calls[m].command) ==> WasCommitted(calls[..m])
    ensures calls[m].command.StartGh? ==> WasDone(calls[..m], Push) || WasDone(calls[..m], PushUpstream)
    ensures calls[m].command.WaitGh? ==> WasDone(calls[..m], StartGh)
  {
    hide WasDone, WasCommitted, Observe;
    LawfulMeansPermitted(IN_WORKTREE, calls, m);
    OutcomeWasDone(IN_WORKTREE, calls[..m]);
    if IsPush(calls[m].command) { CleanMeansCommitted(IN_WORKTREE, calls[..m]); }
  }
}
