/**
  The user index lock by lock. The Run goroutine registers and unregisters one client at a time, reading
  the client's user id, updating the index and updating h.clients in separate steps; SetUserID comes from
  any goroutine and is one step under userIndexMu.
 */
module UserIndex {
  import opened RegistryModel

  /** What the Run goroutine is doing. */
  datatype Runner =
    | Idle
    | RegChecked(c: Client)                // connection limit checked, user id still to be read
    | RegRead(c: Client, user: string)     // index still to be updated
    | RegIndexed(c: Client)                // h.clients still to be updated
    | UnregSeen(c: Client)                 // client found in h.clients, user id still to be read
    | UnregRead(c: Client, user: string)   // index still to be updated
    | UnregIndexed(c: Client)              // room sweep with its hooks, and h.clients

  datatype Stage =
    | Made      // not registered, or about to be
    | Refused
    | Entered   // from the index update of its registration
    | Gone      // from the index update of its unregistration

  /**
    History of one client. `changed`: its user id has changed since it was made. `entryUser` and
    `exitUser`: the user ids that its registration and its unregistration read. `strayed`: the user id
    was not entryUser any more when the registration filed it under that, nor has it been since. `late`:
    the user id was not exitUser any more when the unregistration unfiled it from that, or it has changed
    since.
   */
  datatype Note = Note(stage: Stage, changed: bool, entryUser: string, strayed: bool, exitUser: string, late: bool)

  datatype Hub = Hub(reg: State, runner: Runner, notes: map<Client, Note>)

  datatype Step =
    | MakeClient(c: Client, user: string)
    | BeginRegister(c: Client)
    | BeginUnregister(c: Client)
    | ReadUser
    | UpdateIndex
    | UpdateClients
    | SetUserID(c: Client, user: string)

  ghost predicate Init(s: Hub) {
    s.reg == Empty(s.reg.limits) && s.runner == Idle && s.notes == map[]
  }

  // ---------------------------------------------------------------- the parts of register and unregister

  ghost function Filed(reg: State, c: Client, user: string): State {
    if user == "" then reg else reg.(users := Added(reg.users, user, c))
  }

  ghost predicate UserFull(reg: State, user: string) {
    user != "" && Reached(reg.limits.maxConnectionsPerUser, |MembersOf(reg.users, user)|)
  }

  ghost function Enrolled(reg: State, c: Client): State {
    reg.(clients := reg.clients + {c}, index := reg.index[c.id := c], count := reg.count + 1)
  }

  ghost function Unfiled(reg: State, c: Client, user: string): State {
    if user == "" then reg else reg.(users := Removed(reg.users, user, c))
  }

  ghost function Dropped(reg: State, c: Client): State
    requires c in reg.roomsOf
  {
    LeaveAll(reg, c).(clients := reg.clients - {c}, index := reg.index - {c.id}, count := reg.count - 1)
  }

  /** With nothing in between, the parts make up the whole registration. */
  lemma RegisterInParts(reg: State, c: Client)
    requires c in reg.userOf
    ensures Register(reg, c) ==
            if Reached(reg.limits.maxConnections, |reg.clients|) then Outcome(reg, MaxConnectionsReached)
            else if UserFull(reg, reg.userOf[c]) then Outcome(reg, MaxUserConnectionsReached)
            else Outcome(Enrolled(Filed(reg, c, reg.userOf[c]), c), Nil)
  {}

  /** And the whole unregistration. */
  lemma UnregisterInParts(reg: State, c: Client)
    requires c in reg.userOf && c in reg.roomsOf
    ensures Unregister(reg, c) == if c in reg.clients then Dropped(Unfiled(reg, c, reg.userOf[c]), c) else reg
  {}

  // ---------------------------------------------------------------- the protocol

  /** The note of a client whose user id has just changed. */
  ghost function Changed(n: Note, user: string): Note {
    n.(changed := true, strayed := n.strayed && user != n.entryUser, late := n.late || n.stage == Gone)
  }

  ghost predicate RunnerStep(s: Hub, step: Step, t: Hub) {
    match s.runner
    case Idle => false
    case RegChecked(c) =>
      && step == ReadUser && c in s.reg.userOf && c in s.notes
      && t == s.(runner := RegRead(c, s.reg.userOf[c]),
                 notes := s.notes[c := s.notes[c].(entryUser := s.reg.userOf[c])])
    case RegRead(c, user) =>
      && step == UpdateIndex && c in s.reg.userOf && c in s.notes
      && if UserFull(s.reg, user) then t == s.(runner := Idle, notes := s.notes[c := s.notes[c].(stage := Refused)])
         else t == Hub(Filed(s.reg, c, user), RegIndexed(c),
                         s.notes[c := s.notes[c].(stage := Entered, strayed := s.reg.userOf[c] != user)])
    case RegIndexed(c) =>
      step == UpdateClients && t == s.(reg := Enrolled(s.reg, c), runner := Idle)
    case UnregSeen(c) =>
      && step == ReadUser && c in s.reg.userOf && c in s.notes
      && t == s.(runner := UnregRead(c, s.reg.userOf[c]),
                 notes := s.notes[c := s.notes[c].(exitUser := s.reg.userOf[c])])
    case UnregRead(c, user) =>
      && step == UpdateIndex && c in s.reg.userOf && c in s.notes
      && t == Hub(Unfiled(s.reg, c, user), UnregIndexed(c),
                    s.notes[c := s.notes[c].(stage := Gone, late := s.reg.userOf[c] != user)])
    case UnregIndexed(c) =>
      step == UpdateClients && c in s.reg.roomsOf && t == s.(reg := Dropped(s.reg, c), runner := Idle)
  }

  /** UpgradeConnection registers each client it makes once; anybody may ask for an unregistration at any time. */
  ghost predicate BeginStep(s: Hub, step: Step, t: Hub) {
    match step
    case MakeClient(c, user) =>
      && c !in s.reg.userOf && c !in s.notes
      && t == s.(reg := Create(s.reg, c, user), notes := s.notes[c := Note(Made, false, "", false, "", false)])
    case BeginRegister(c) =>
      && s.runner == Idle && c in s.notes && s.notes[c].stage == Made
      && t == if Reached(s.reg.limits.maxConnections, |s.reg.clients|)
              then s.(notes := s.notes[c := s.notes[c].(stage := Refused)]) else s.(runner := RegChecked(c))
    case BeginUnregister(c) =>
      && s.runner == Idle
      && t == if c in s.reg.clients then s.(runner := UnregSeen(c)) else s
    case _ => false
  }

  ghost predicate SetUserStep(s: Hub, step: Step, t: Hub) {
    && step.SetUserID? && step.c in s.reg.userOf && step.c in s.notes
    && var reg := SetUser(s.reg, step.c, step.user).state;
       t == s.(reg := reg,
               notes := if reg.userOf[step.c] == s.reg.userOf[step.c] then s.notes
                        else s.notes[step.c := Changed(s.notes[step.c], step.user)])
  }

  ghost predicate Next(s: Hub, step: Step, t: Hub) {
    RunnerStep(s, step, t) || BeginStep(s, step, t) || SetUserStep(s, step, t)
  }

  ghost predicate Run(states: seq<Hub>, steps: seq<Step>) {
    && |states| == |steps| + 1 && Init(states[0])
    && forall i :: 0 <= i < |steps| ==> Next(states[i], steps[i], states[i + 1])
  }

  // ---------------------------------------------------------------- which entries a client has

  /** User id `user` is one under which a client with this history and current user id is filed. */
  ghost predicate Entry(n: Note, current: string, user: string) {
    user != "" &&
    match n.stage
    case Made | Refused => n.changed && user == current
    case Entered => user == current || (n.strayed && user == n.entryUser)
    case Gone => (n.late && user == current) || (n.strayed && user == n.entryUser)
  }

  /** The user index has exactly these entries of client c. */
  ghost predicate NoteFits(s: Hub, c: Client) {
    if c in s.notes then
      && c in s.reg.userOf
      && (s.notes[c].strayed ==> s.notes[c].entryUser != s.reg.userOf[c])
      && forall user :: Holds(s.reg.users, user, c) <==> Entry(s.notes[c], s.reg.userOf[c], user)
    else
      c !in s.reg.userOf && forall user :: !Holds(s.reg.users, user, c)
  }

  /** What the runner holds about the client it deals with. */
  ghost predicate RunnerFits(s: Hub) {
    match s.runner
    case Idle => true
    case RegChecked(c) => c in s.notes && s.notes[c].stage == Made && !s.notes[c].strayed
    case RegRead(c, user) =>
      && c in s.notes && s.notes[c].stage == Made && s.notes[c].entryUser == user && c in s.reg.userOf
      && (!s.notes[c].changed ==> s.reg.userOf[c] == user) && !s.notes[c].strayed
    case RegIndexed(c) => c in s.notes && s.notes[c].stage == Entered
    case UnregSeen(c) => c in s.notes && s.notes[c].stage == Entered
    case UnregRead(c, user) =>
      && c in s.notes && s.notes[c].stage == Entered && s.notes[c].exitUser == user
      && (s.notes[c].strayed ==> s.notes[c].entryUser != user)
    case UnregIndexed(c) => c in s.notes && s.notes[c].stage == Gone
  }

  ghost predicate StagesFit(s: Hub) {
    && (forall c :: c in s.reg.clients ==> c in s.notes && (s.notes[c].stage == Entered || s.runner == UnregIndexed(c)))
    && (forall c :: c in s.notes && s.notes[c].stage == Made ==> !s.notes[c].strayed)
  }

  ghost predicate EntriesFit(s: Hub) {
    (forall c :: NoteFits(s, c)) && RunnerFits(s) && StagesFit(s)
  }
}
