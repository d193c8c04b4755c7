/** Which entries of the user index outlive their clients, over every run. */
module UserIndexRuns {
  import opened RegistryModel
  import opened UserIndex

  // ---------------------------------------------------------------- one step

  /** Nothing the step does concerns client d. */
  ghost predicate Untouched(s: Hub, t: Hub, d: Client) {
    && (d in t.notes <==> d in s.notes) && (d in t.reg.userOf <==> d in s.reg.userOf)
    && (d in s.notes ==> t.notes[d] == s.notes[d])
    && (d in s.reg.userOf ==> t.reg.userOf[d] == s.reg.userOf[d])
    && forall user :: Holds(t.reg.users, user, d) <==> Holds(s.reg.users, user, d)
  }

  lemma UntouchedFits(s: Hub, t: Hub, d: Client)
    requires NoteFits(s, d) && Untouched(s, t, d)
    ensures NoteFits(t, d)
  {}

  lemma FiledHolds(reg: State, c: Client, user: string)
    ensures forall u, d :: Holds(Filed(reg, c, user).users, u, d) <==>
              Holds(reg.users, u, d) || (u == user && d == c && user != "")
  {
    AddedHolds(reg.users, user, c);
  }

  lemma UnfiledHolds(reg: State, c: Client, user: string)
    ensures forall u, d :: Holds(Unfiled(reg, c, user).users, u, d) <==>
              Holds(reg.users, u, d) && !(u == user && d == c && user != "")
  {
    RemovedHolds(reg.users, user, c);
  }

  /** A SetUserID that takes effect moves its client's entry and no other. */
  lemma SetUserMoves(reg: State, c: Client, user: string)
    requires c in reg.userOf && SetUser(reg, c, user).state.userOf[c] != reg.userOf[c]
    ensures SetUser(reg, c, user).state.userOf == reg.userOf[c := user]
    ensures forall u, d :: Holds(SetUser(reg, c, user).state.users, u, d) <==>
              || (u == user && d == c && user != "")
              || (Holds(reg.users, u, d) && !(u == reg.userOf[c] && d == c && reg.userOf[c] != ""))
  {
    var was := reg.userOf[c];
    RemovedHolds(reg.users, was, c);
    AddedHolds(if was == "" then reg.users else Removed(reg.users, was, c), user, c);
  }

  lemma SetUserIdle(reg: State, c: Client, user: string)
    requires c in reg.userOf && SetUser(reg, c, user).state.userOf[c] == reg.userOf[c]
    ensures SetUser(reg, c, user).state == reg
  {}

  // ---------------------------------------------------------------- steps of the runner

  lemma FilingFits(s: Hub, t: Hub, c: Client, user: string)
    requires s.runner == RegRead(c, user) && NoteFits(s, c) && RunnerFits(s)
    requires t == Hub(Filed(s.reg, c, user), RegIndexed(c),
                      s.notes[c := s.notes[c].(stage := Entered, strayed := s.reg.userOf[c] != user)])
    ensures NoteFits(t, c)
  {
    FiledHolds(s.reg, c, user);
  }

  lemma UnfilingFits(s: Hub, t: Hub, c: Client, user: string)
    requires s.runner == UnregRead(c, user) && NoteFits(s, c) && RunnerFits(s)
    requires t == Hub(Unfiled(s.reg, c, user), UnregIndexed(c),
                      s.notes[c := s.notes[c].(stage := Gone, late := s.reg.userOf[c] != user)])
    ensures NoteFits(t, c)
  {
    UnfiledHolds(s.reg, c, user);
  }

  lemma OthersUntouched(s: Hub, step: Step, t: Hub, c: Client, d: Client)
    requires RunnerStep(s, step, t) && s.runner != Idle && c == s.runner.c && d != c
    ensures Untouched(s, t, d)
  {
    if s.runner.RegRead? {
      FiledHolds(s.reg, c, s.runner.user);
    } else if s.runner.UnregRead? {
      UnfiledHolds(s.reg, c, s.runner.user);
    }
  }

  lemma RunnerStepFits(s: Hub, step: Step, t: Hub, c: Client)
    requires NoteFits(s, c) && RunnerFits(s) && RunnerStep(s, step, t) && s.runner != Idle && c == s.runner.c
    ensures NoteFits(t, c)
  {
    if s.runner.RegRead? && !UserFull(s.reg, s.runner.user) {
      FilingFits(s, t, c, s.runner.user);
    } else if s.runner.UnregRead? {
      UnfilingFits(s, t, c, s.runner.user);
    }
  }

  lemma RunnerStepKeepsStages(s: Hub, step: Step, t: Hub)
    requires EntriesFit(s) && RunnerStep(s, step, t)
    ensures RunnerFits(t) && StagesFit(t)
  {
    assert NoteFits(s, s.runner.c);
  }

  lemma RunnerStepKeepsInv(s: Hub, step: Step, t: Hub)
    requires EntriesFit(s) && RunnerStep(s, step, t)
    ensures EntriesFit(t)
  {
    RunnerStepKeepsStages(s, step, t);
    forall d
      ensures NoteFits(t, d)
    {
      assert NoteFits(s, d);
      if d == s.runner.c {
        RunnerStepFits(s, step, t, d);
      } else {
        OthersUntouched(s, step, t, s.runner.c, d);
        UntouchedFits(s, t, d);
      }
    }
  }

  // ---------------------------------------------------------------- other steps

  lemma BeginStepKeepsInv(s: Hub, step: Step, t: Hub)
    requires EntriesFit(s) && BeginStep(s, step, t)
    ensures EntriesFit(t)
  {
    forall d
      ensures NoteFits(t, d)
    {
      assert NoteFits(s, d);
      if d != step.c {
        UntouchedFits(s, t, d);
      }
    }
  }

  lemma SetUserFits(s: Hub, step: Step, t: Hub, d: Client)
    requires NoteFits(s, d) && SetUserStep(s, step, t)
    ensures NoteFits(t, d)
  {
    var c := step.c;
    if SetUser(s.reg, c, step.user).state.userOf[c] == s.reg.userOf[c] {
      SetUserIdle(s.reg, c, step.user);
    } else {
      SetUserMoves(s.reg, c, step.user);
      if d != c {
        UntouchedFits(s, t, d);
      }
    }
  }

  lemma SetUserKeepsStages(s: Hub, step: Step, t: Hub)
    requires RunnerFits(s) && StagesFit(s) && SetUserStep(s, step, t)
    ensures RunnerFits(t) && StagesFit(t)
  {
    var c := step.c;
    if SetUser(s.reg, c, step.user).state.userOf[c] == s.reg.userOf[c] {
      SetUserIdle(s.reg, c, step.user);
    } else {
      SetUserMoves(s.reg, c, step.user);
    }
  }

  lemma NextKeepsInv(s: Hub, step: Step, t: Hub)
    requires EntriesFit(s) && Next(s, step, t)
    ensures EntriesFit(t)
  {
    if RunnerStep(s, step, t) {
      RunnerStepKeepsInv(s, step, t);
    } else if BeginStep(s, step, t) {
      BeginStepKeepsInv(s, step, t);
    } else {
      SetUserKeepsStages(s, step, t);
      forall d
        ensures NoteFits(t, d)
      {
        assert NoteFits(s, d);
        SetUserFits(s, step, t, d);
      }
    }
  }

  lemma {:induction false} RunInv(states: seq<Hub>, steps: seq<Step>, i: nat)
    requires Run(states, steps) && i < |states|
    ensures EntriesFit(states[i])
  {
    if i > 0 {
      RunInv(states, steps, i - 1);
      NextKeepsInv(states[i - 1], steps[i - 1], states[i]);
    }
  }

  // ---------------------------------------------------------------- the main results

  /**
    The user index, exactly: in every state of every run it files a client that is not registered yet, or
    was refused, under its user id if that has been changed; a registered one under its user id, and under
    the one its registration read if a change overtook that and the user id has not come back to it; and
    one that is gone under its user id only if a change came after its unregistration read it.
   */
  lemma EntriesAreExact(states: seq<Hub>, steps: seq<Step>, i: nat, c: Client, user: string)
    requires Run(states, steps) && i < |states| && c in states[i].notes
    ensures c in states[i].reg.userOf
    ensures Holds(states[i].reg.users, user, c) <==> Entry(states[i].notes[c], states[i].reg.userOf[c], user)
  {
    RunInv(states, steps, i);
    assert NoteFits(states[i], c);
  }

  /** Some entry names the client although it is not registered, nor in the middle of its registration. */
  ghost predicate Outlived(s: Hub, c: Client) {
    c in s.notes && s.notes[c].stage != Entered && exists user :: Holds(s.reg.users, user, c)
  }

  /**
    When an entry outlives its client: if and only if a SetUserID took effect on a client not registered
    yet or refused, or after the unregistration had read the user id, and left the user id non-empty; or
    one overtook the registration between its read and its index update, and the user id has not come
    back to what the registration read.
   */
  lemma EntryOutlivesExactlyWhen(states: seq<Hub>, steps: seq<Step>, i: nat, c: Client)
    requires Run(states, steps) && i < |states| && c in states[i].notes && states[i].notes[c].stage != Entered
    ensures c in states[i].reg.userOf
    ensures var n, current := states[i].notes[c], states[i].reg.userOf[c];
            Outlived(states[i], c) <==>
              if n.stage == Gone then (n.late && current != "") || (n.strayed && n.entryUser != "")
              else n.changed && current != ""
  {
    RunInv(states, steps, i);
    var s := states[i];
    assert NoteFits(s, c);
    var n, current := s.notes[c], s.reg.userOf[c];
    assert Holds(s.reg.users, current, c) <==> Entry(n, current, current);
    assert Holds(s.reg.users, n.entryUser, c) <==> Entry(n, current, n.entryUser);
  }

  /** A registered client is filed under its user id and nothing else, unless a change overtook its registration. */
  lemma RegisteredExactlyWhen(states: seq<Hub>, steps: seq<Step>, i: nat, c: Client)
    requires Run(states, steps) && i < |states| && c in states[i].notes && states[i].notes[c].stage == Entered
    ensures c in states[i].reg.userOf
    ensures (forall user :: Holds(states[i].reg.users, user, c) <==> user != "" && user == states[i].reg.userOf[c]) <==>
              !(states[i].notes[c].strayed && states[i].notes[c].entryUser != "")
  {
    RunInv(states, steps, i);
    var s := states[i];
    assert NoteFits(s, c);
    var n, current := s.notes[c], s.reg.userOf[c];
    assert Holds(s.reg.users, n.entryUser, c) <==> Entry(n, current, n.entryUser);
  }

  // ---------------------------------------------------------------- calls that keep out of the windows

  /** This step changes the user id of client c. */
  ghost predicate Changes(s: Hub, step: Step, t: Hub, c: Client) {
    && step.SetUserID? && step.c == c && c in s.reg.userOf && c in t.reg.userOf
    && t.reg.userOf[c] != s.reg.userOf[c]
  }

  /** Client c is registered, and no unregistration has read its user id. */
  ghost predicate Settled(s: Hub, c: Client) {
    c in s.notes && s.notes[c].stage == Entered && !(s.runner.UnregRead? && s.runner.c == c)
  }

  /** No change of c's user id has happened outside that time. */
  ghost predicate Calm(s: Hub, c: Client) {
    c in s.notes ==>
      var n := s.notes[c];
      && !n.strayed && !n.late && (n.stage == Made || n.stage == Refused ==> !n.changed)
      && (s.runner.RegRead? && s.runner.c == c ==> c in s.reg.userOf && s.runner.user == s.reg.userOf[c])
      && (s.runner.UnregRead? && s.runner.c == c ==> c in s.reg.userOf && s.runner.user == s.reg.userOf[c])
  }

  lemma NextKeepsCalm(s: Hub, step: Step, t: Hub, c: Client)
    requires EntriesFit(s) && Calm(s, c) && Next(s, step, t) && (Changes(s, step, t, c) ==> Settled(s, c))
    ensures Calm(t, c)
  {
    assert NoteFits(s, c);
    if SetUserStep(s, step, t) {
      if SetUser(s.reg, step.c, step.user).state.userOf[step.c] == s.reg.userOf[step.c] {
        SetUserIdle(s.reg, step.c, step.user);
      } else {
        SetUserMoves(s.reg, step.c, step.user);
      }
    }
  }

  lemma {:induction false} StaysCalm(states: seq<Hub>, steps: seq<Step>, i: nat, c: Client)
    requires Run(states, steps) && i < |states|
    requires forall j :: 0 <= j < |steps| && Changes(states[j], steps[j], states[j + 1], c) ==> Settled(states[j], c)
    ensures Calm(states[i], c)
  {
    if i > 0 {
      StaysCalm(states, steps, i - 1, c);
      RunInv(states, steps, i - 1);
      assert states[i - 1 + 1] == states[i];
      NextKeepsCalm(states[i - 1], steps[i - 1], states[i], c);
    }
  }

  /**
    A client whose user id is changed only while it is registered, and before its unregistration reads it,
    is filed under exactly its user id while registered and leaves no entry behind.
   */
  lemma CalmClientLeavesNothing(states: seq<Hub>, steps: seq<Step>, i: nat, c: Client)
    requires Run(states, steps) && i < |states| && c in states[i].notes
    requires forall j :: 0 <= j < |steps| && Changes(states[j], steps[j], states[j + 1], c) ==> Settled(states[j], c)
    ensures !Outlived(states[i], c)
    ensures c in states[i].reg.userOf
    ensures states[i].notes[c].stage == Entered ==>
              forall user :: Holds(states[i].reg.users, user, c) <==> user != "" && user == states[i].reg.userOf[c]
  {
    StaysCalm(states, steps, i, c);
    if states[i].notes[c].stage == Entered {
      RegisteredExactlyWhen(states, steps, i, c);
    } else {
      EntryOutlivesExactlyWhen(states, steps, i, c);
    }
  }

  // ---------------------------------------------------------------- the history in terms of the run

  lemma NextKeepsGone(s: Hub, step: Step, t: Hub, c: Client)
    requires EntriesFit(s) && Next(s, step, t) && c in s.notes && s.notes[c].stage == Gone
    ensures c in t.notes && t.notes[c].stage == Gone && t.notes[c].exitUser == s.notes[c].exitUser
    ensures t.notes[c].late <==> s.notes[c].late || Changes(s, step, t, c)
  {
    assert NoteFits(s, c);
    if SetUserStep(s, step, t) && step.c == c {
      if SetUser(s.reg, c, step.user).state.userOf[c] != s.reg.userOf[c] {
        SetUserMoves(s.reg, c, step.user);
      }
    }
  }

  /** Once gone, a client stays so, and is late as soon as its user id changes. */
  ghost predicate StaysGone(states: seq<Hub>, steps: seq<Step>, c: Client)
    requires |states| == |steps| + 1
  {
    forall n :: 0 <= n < |steps| && c in states[n].notes && states[n].notes[c].stage == Gone ==>
      GoneFollows(states[n], steps[n], states[n + 1], c)
  }

  ghost predicate GoneFollows(s: Hub, step: Step, t: Hub, c: Client)
    requires c in s.notes
  {
    && c in t.notes && t.notes[c].stage == Gone
    && (t.notes[c].late <==> s.notes[c].late || Changes(s, step, t, c))
  }

  lemma RunStaysGone(states: seq<Hub>, steps: seq<Step>, c: Client)
    requires Run(states, steps)
    ensures StaysGone(states, steps, c)
  {
    forall n | 0 <= n < |steps| && c in states[n].notes && states[n].notes[c].stage == Gone
      ensures GoneFollows(states[n], steps[n], states[n + 1], c)
    {
      RunInv(states, steps, n);
      NextKeepsGone(states[n], steps[n], states[n + 1], c);
    }
  }

  lemma {:induction false} LateFrom(states: seq<Hub>, steps: seq<Step>, k: nat, i: nat, c: Client)
    requires |states| == |steps| + 1 && StaysGone(states, steps, c) && k <= i < |states|
    requires c in states[k].notes && states[k].notes[c].stage == Gone
    ensures c in states[i].notes && states[i].notes[c].stage == Gone
    ensures states[i].notes[c].late <==> states[k].notes[c].late || ChangedWithin(states, steps, k, i, c)
    decreases i
  {
    if k < i {
      var m := i - 1;
      LateFrom(states, steps, k, m, c);
      ChangedWithinGrows(states, steps, k, m, c);
      assert GoneFollows(states[m], steps[m], states[m + 1], c);
    }
  }

  /**
    `late`, in terms of the run: step k is the index update of c's unregistration. The user id was not the
    one read any more, or a SetUserID has changed it since.
   */
  lemma LateExactlyWhen(states: seq<Hub>, steps: seq<Step>, k: nat, i: nat, c: Client, user: string)
    requires Run(states, steps) && k < i < |states|
    requires states[k].runner == UnregRead(c, user) && RunnerStep(states[k], steps[k], states[k + 1])
    ensures c in states[k].reg.userOf && c in states[i].notes && states[i].notes[c].stage == Gone
    ensures states[i].notes[c].late <==>
              states[k].reg.userOf[c] != user || ChangedWithin(states, steps, k + 1, i, c)
  {
    RunStaysGone(states, steps, c);
    LateFrom(states, steps, k + 1, i, c);
  }

  lemma ChangedWithinGrows(states: seq<Hub>, steps: seq<Step>, from: nat, to: nat, c: Client)
    requires from <= to < |steps| && |states| == |steps| + 1
    ensures ChangedWithin(states, steps, from, to + 1, c) <==>
              ChangedWithin(states, steps, from, to, c) || Changes(states[to], steps[to], states[to + 1], c)
  {}

  ghost predicate ChangedWithin(states: seq<Hub>, steps: seq<Step>, from: nat, to: nat, c: Client)
    requires to < |states| == |steps| + 1
  {
    exists n :: from <= n < to && Changes(states[n], steps[n], states[n + 1], c)
  }

  /** From its registration's index update on: strayed until the user id is the one read. */
  ghost predicate StrayFollows(s: Hub, t: Hub, c: Client)
    requires c in s.notes
  {
    && c in t.notes && (t.notes[c].stage == Entered || t.notes[c].stage == Gone)
    && t.notes[c].entryUser == s.notes[c].entryUser && c in t.reg.userOf
    && (t.notes[c].strayed <==> s.notes[c].strayed && t.reg.userOf[c] != s.notes[c].entryUser)
  }

  lemma SetUserKeepsStray(s: Hub, step: Step, t: Hub, c: Client)
    requires NoteFits(s, c) && SetUserStep(s, step, t) && c in s.notes
    requires s.notes[c].stage == Entered || s.notes[c].stage == Gone
    ensures StrayFollows(s, t, c)
  {
    if SetUser(s.reg, step.c, step.user).state.userOf[step.c] == s.reg.userOf[step.c] {
      SetUserIdle(s.reg, step.c, step.user);
    } else {
      SetUserMoves(s.reg, step.c, step.user);
    }
  }

  lemma RunnerKeepsStray(s: Hub, step: Step, t: Hub, c: Client)
    requires NoteFits(s, c) && RunnerFits(s) && (RunnerStep(s, step, t) || BeginStep(s, step, t)) && c in s.notes
    requires s.notes[c].stage == Entered || s.notes[c].stage == Gone
    ensures StrayFollows(s, t, c)
  {}

  lemma StepKeepsStray(states: seq<Hub>, steps: seq<Step>, n: nat, c: Client)
    requires Run(states, steps) && n < |steps| && c in states[n].notes
    requires states[n].notes[c].stage == Entered || states[n].notes[c].stage == Gone
    ensures StrayFollows(states[n], states[n + 1], c)
  {
    RunInv(states, steps, n);
    assert NoteFits(states[n], c);
    if SetUserStep(states[n], steps[n], states[n + 1]) {
      SetUserKeepsStray(states[n], steps[n], states[n + 1], c);
    } else {
      RunnerKeepsStray(states[n], steps[n], states[n + 1], c);
    }
  }

  /** After state k, client c's user id is never `user` up to state i. */
  ghost predicate NeverBack(states: seq<Hub>, k: nat, i: nat, c: Client, user: string)
    requires i < |states|
  {
    forall n :: k < n <= i ==> !IsUser(states[n].reg.userOf, c, user)
  }

  ghost predicate Past(s: Hub, c: Client) {
    c in s.notes && (s.notes[c].stage == Entered || s.notes[c].stage == Gone)
  }

  ghost predicate FollowsStray(states: seq<Hub>, c: Client) {
    forall n :: 0 <= n < |states| - 1 && Past(states[n], c) ==> StrayFollows(states[n], states[n + 1], c)
  }

  lemma RunFollowsStray(states: seq<Hub>, steps: seq<Step>, c: Client)
    requires Run(states, steps)
    ensures FollowsStray(states, c)
  {
    forall n | 0 <= n < |states| - 1 && Past(states[n], c)
      ensures StrayFollows(states[n], states[n + 1], c)
    {
      StepKeepsStray(states, steps, n, c);
    }
  }

  lemma {:induction false} StrayFrom(states: seq<Hub>, k: nat, i: nat, c: Client)
    requires FollowsStray(states, c) && k <= i < |states| && Past(states[k], c)
    ensures Past(states[i], c) && states[i].notes[c].entryUser == states[k].notes[c].entryUser
    ensures states[k].notes[c].entryUser != "" ==>
              (states[i].notes[c].strayed <==>
               states[k].notes[c].strayed && NeverBack(states, k, i, c, states[k].notes[c].entryUser))
    decreases i
  {
    if k < i {
      var m := i - 1;
      var user := states[k].notes[c].entryUser;
      StrayFrom(states, k, m, c);
      assert StrayFollows(states[m], states[m + 1], c);
      assert NeverBack(states, k, i, c, user) <==>
               NeverBack(states, k, m, c, user) && !IsUser(states[i].reg.userOf, c, user);
    }
  }

  /**
    `strayed`, in terms of the run: step k is the index update of c's registration, which read a non-empty
    user id. The user id was not the one read any more, and has not been that in any state since.
   */
  lemma StrayedExactlyWhen(states: seq<Hub>, steps: seq<Step>, k: nat, i: nat, c: Client, user: string)
    requires Run(states, steps) && k < i < |states| && user != ""
    requires states[k].runner == RegRead(c, user) && RunnerStep(states[k], steps[k], states[k + 1])
    requires states[k + 1].runner == RegIndexed(c)
    ensures c in states[k].reg.userOf && c in states[i].notes && states[i].notes[c].entryUser == user
    ensures states[i].notes[c].stage == Entered || states[i].notes[c].stage == Gone
    ensures states[i].notes[c].strayed <==> states[k].reg.userOf[c] != user && NeverBack(states, k + 1, i, c, user)
  {
    RunInv(states, steps, k);
    RunFollowsStray(states, steps, c);
    StrayFrom(states, k + 1, i, c);
  }

  // ---------------------------------------------------------------- runs in which an entry is left behind

  lemma Extend(states: seq<Hub>, steps: seq<Step>, step: Step, t: Hub)
    requires Run(states, steps) && Next(states[|steps|], step, t)
    ensures Run(states + [t], steps + [step])
  {
    var more := states + [t];
    forall i | 0 <= i < |steps| + 1
      ensures Next(more[i], (steps + [step])[i], more[i + 1])
    {
      assert i < |steps| ==> Next(states[i], steps[i], states[i + 1]);
    }
  }

  /** A client without a user id whose registration or unregistration has come this far. */
  ghost function Nameless(stage: Stage): Note {
    Note(stage, false, "", false, "", false)
  }

  ghost function Lone(limits: Limits, c: Client): State {
    Enrolled(Create(Empty(limits), c, ""), c)
  }

  /** A client without a user id registers. */
  lemma RegisteringRun(limits: Limits, c: Client) returns (states: seq<Hub>, steps: seq<Step>)
    ensures Run(states, steps) && |steps| == 5 && states[5] == Hub(Lone(limits, c), Idle, map[c := Nameless(Entered)])
  {
    var reg := Create(Empty(limits), c, "");
    var made := map[c := Nameless(Made)];
    assert made[c := Nameless(Entered)] == map[c := Nameless(Entered)];
    states, steps := [Hub(Empty(limits), Idle, map[])], [];
    var s1, s2, s3 := Hub(reg, Idle, made), Hub(reg, RegChecked(c), made), Hub(reg, RegRead(c, ""), made);
    var s4 := Hub(reg, RegIndexed(c), map[c := Nameless(Entered)]);
    Extend(states, steps, MakeClient(c, ""), s1);
    states, steps := states + [s1], steps + [MakeClient(c, "")];
    Extend(states, steps, BeginRegister(c), s2);
    states, steps := states + [s2], steps + [BeginRegister(c)];
    assert made[c := made[c].(entryUser := "")] == made;
    Extend(states, steps, ReadUser, s3);
    states, steps := states + [s3], steps + [ReadUser];
    Extend(states, steps, UpdateIndex, s4);
    states, steps := states + [s4], steps + [UpdateIndex];
    var s5 := Hub(Lone(limits, c), Idle, s4.notes);
    Extend(states, steps, UpdateClients, s5);
    states, steps := states + [s5], steps + [UpdateClients];
  }

  /** And unregisters, up to the room sweep. */
  lemma SweepingRun(limits: Limits, c: Client) returns (states: seq<Hub>, steps: seq<Step>)
    ensures Run(states, steps) && |steps| == 8
    ensures states[8] == Hub(Lone(limits, c), UnregIndexed(c), map[c := Nameless(Gone)])
  {
    states, steps := RegisteringRun(limits, c);
    var reg, entered := Lone(limits, c), map[c := Nameless(Entered)];
    var s6, s7 := Hub(reg, UnregSeen(c), entered), Hub(reg, UnregRead(c, ""), entered);
    var s8 := Hub(reg, UnregIndexed(c), map[c := Nameless(Gone)]);
    Extend(states, steps, BeginUnregister(c), s6);
    states, steps := states + [s6], steps + [BeginUnregister(c)];
    assert entered[c := entered[c].(exitUser := "")] == entered;
    Extend(states, steps, ReadUser, s7);
    states, steps := states + [s7], steps + [ReadUser];
    assert entered[c := Nameless(Gone)] == s8.notes;
    Extend(states, steps, UpdateIndex, s8);
    states, steps := states + [s8], steps + [UpdateIndex];
  }

  /**
    Under any limits: a SetUserID that comes while the unregistration sweeps the rooms, on a client that
    is still in h.clients, leaves an entry behind.
   */
  lemma SetUserDuringSweepLeaks(limits: Limits, c: Client, user: string) returns (states: seq<Hub>, steps: seq<Step>)
    requires user != ""
    ensures Run(states, steps) && |steps| == 10
    ensures steps[8] == SetUserID(c, user) && c in states[8].reg.clients && states[8].runner == UnregIndexed(c)
    ensures states[10].runner == Idle && c !in states[10].reg.clients && Holds(states[10].reg.users, user, c)
  {
    states, steps := SweepingRun(limits, c);
    var s8 := states[8];
    var s9 := Hub(SetUser(s8.reg, c, user).state, UnregIndexed(c), s8.notes[c := Changed(s8.notes[c], user)]);
    var s10 := Hub(Dropped(s9.reg, c), Idle, s9.notes);
    SetUserMoves(s8.reg, c, user);
    Extend(states, steps, SetUserID(c, user), s9);
    states, steps := states + [s9], steps + [SetUserID(c, user)];
    Extend(states, steps, UpdateClients, s10);
    states, steps := states + [s10], steps + [UpdateClients];
  }

  /**
    Under any limits: a SetUserID that comes between the registration's read of the user id and its index
    update leaves the client filed under both user ids.
   */
  lemma SetUserDuringRegistrationStrays(limits: Limits, c: Client, first: string, user: string)
    returns (states: seq<Hub>, steps: seq<Step>)
    requires first != "" && user != "" && first != user
    ensures Run(states, steps) && |steps| == 6 && steps[3] == SetUserID(c, user)
    ensures c in states[6].reg.clients && c in states[6].reg.userOf && states[6].reg.userOf[c] == user
    ensures Holds(states[6].reg.users, user, c) && Holds(states[6].reg.users, first, c)
  {
    var r1 := Create(Empty(limits), c, first);
    var made := Note(Made, false, "", false, "", false);
    var read := made.(entryUser := first);
    var s1, s2 := Hub(r1, Idle, map[c := made]), Hub(r1, RegChecked(c), map[c := made]);
    var s3 := Hub(r1, RegRead(c, first), s2.notes[c := read]);
    var s4 := Hub(SetUser(r1, c, user).state, s3.runner, s3.notes[c := Changed(read, user)]);
    var s5 := Hub(Filed(s4.reg, c, first), RegIndexed(c),
                  s4.notes[c := s4.notes[c].(stage := Entered, strayed := true)]);
    var s6 := Hub(Enrolled(s5.reg, c), Idle, s5.notes);
    SetUserMoves(r1, c, user);
    FiledHolds(s4.reg, c, first);
    assert MembersOf(s4.reg.users, first) == {};
    states, steps := [Hub(Empty(limits), Idle, map[])], [];
    Extend(states, steps, MakeClient(c, first), s1);
    states, steps := states + [s1], steps + [MakeClient(c, first)];
    Extend(states, steps, BeginRegister(c), s2);
    states, steps := states + [s2], steps + [BeginRegister(c)];
    Extend(states, steps, ReadUser, s3);
    states, steps := states + [s3], steps + [ReadUser];
    Extend(states, steps, SetUserID(c, user), s4);
    states, steps := states + [s4], steps + [SetUserID(c, user)];
    Extend(states, steps, UpdateIndex, s5);
    states, steps := states + [s5], steps + [UpdateIndex];
    Extend(states, steps, UpdateClients, s6);
    states, steps := states + [s6], steps + [UpdateClients];
  }
}
