/** Groups, one whole command at a time: who is in which, and what each player is told. */
module Parties {
  import opened Wrappers
  import opened GoStrings
  import opened Wire

  type Name = string

  datatype Problem = NotInGroup | NotLeader | InGroup | PlayerNotFound | InvalidCommand

  /** What a player can be told. */
  datatype Line =
    | Ok
    | Refusal(problem: Problem)
    | CreatedGroup(leader: Name)
    | JoinedGroup(leader: Name)
    | Invitation(who: Name)
    | Joining(who: Name)
    | Leaving(who: Name)
    | Message(who: Name, text: string)

  /** The line as it is sent. */
  function Print(line: Line): string {
    match line
    case Ok => "OK"
    case Refusal(problem) => PrintProblem(problem)
    case CreatedGroup(leader) => GroupCreated(leader)
    case JoinedGroup(leader) => GroupJoined(leader)
    case Invitation(who) => EvtPartyInvite(who)
    case Joining(who) => EvtPartyJoin(who)
    case Leaving(who) => EvtPartyLeave(who)
    case Message(who, text) => EvtPartyChat(who, text)
  }

  function PrintProblem(problem: Problem): string {
    ErrorLine(CodeOf(problem), TextOf(problem))
  }

  function CodeOf(problem: Problem): nat {
    match problem
    case NotInGroup => 401
    case NotLeader => 401
    case InGroup => 402
    case PlayerNotFound => 404
    case InvalidCommand => 666
  }

  function TextOf(problem: Problem): string {
    match problem
    case NotInGroup => "NOT_IN_GROUP"
    case NotLeader => "NOT_GROUP_LEADER"
    case InGroup => "ALREADY_IN_GROUP"
    case PlayerNotFound => "PLAYER_NOT_FOUND"
    case InvalidCommand => "INVALID_COMMAND"
  }

  /** An online player: the group it is in, by leader, and the lines sent to it so far. */
  datatype Seat = Seat(group: Option<Name>, lines: seq<Line>)

  /** The registry of groups is keyed by leader, since a group's key is "PT-" and that name. */
  datatype State = State(seats: map<Name, Seat>, parties: map<Name, set<Name>>)

  datatype Command =
    | Login(who: Name)
    | Create(who: Name)
    | Invite(who: Name, invitee: Name)
    | Join(who: Name, leader: Name)
    | Leave(who: Name)
    | GroupChat(who: Name, message: string)
    | Quit(who: Name)

  const NOT_IN_GROUP := Refusal(NotInGroup)
  const NOT_LEADER := Refusal(NotLeader)
  const IN_GROUP := Refusal(InGroup)
  const PLAYER_NOT_FOUND := Refusal(PlayerNotFound)
  const INVALID_COMMAND := Refusal(InvalidCommand)

  // ---- What each command does ----

  function Tell(s: State, who: Name, lines: seq<Line>): State {
    if who in s.seats then s.(seats := s.seats[who := s.seats[who].(lines := s.seats[who].lines + lines)]) else s
  }

  function TellAll(s: State, who: set<Name>, line: Line): State {
    s.(seats := map n | n in s.seats ::
         if n in who then s.seats[n].(lines := s.seats[n].lines + [line]) else s.seats[n])
  }

  function Founded(s: State, who: Name): State
    requires who in s.seats
  {
    State(s.seats[who := s.seats[who].(group := Some(who))], s.parties[who := {who}])
  }

  function Created(s: State, who: Name): State
    requires who in s.seats
  {
    if s.seats[who].group.Some? then Tell(s, who, [IN_GROUP]) else Tell(Founded(s, who), who, [CreatedGroup(who)])
  }

  function Invited(s: State, who: Name, invitee: Name): State
    requires who in s.seats
  {
    if invitee !in s.seats then Tell(s, who, [PLAYER_NOT_FOUND])
    else if s.seats[who].group.None? then Tell(s, who, [NOT_IN_GROUP])
    else if who == invitee then Tell(s, who, [INVALID_COMMAND])
    else if s.seats[who].group != Some(who) then Tell(s, who, [NOT_LEADER])
    else if s.seats[invitee].group.Some? then Tell(s, who, [IN_GROUP])
    else Tell(Tell(s, invitee, [Invitation(who)]), who, [Ok])
  }

  function Inside(s: State, who: Name, leader: Name): State
    requires who in s.seats && leader in s.parties
  {
    State(s.seats[who := s.seats[who].(group := Some(leader))], s.parties[leader := s.parties[leader] + {who}])
  }

  function Outside(s: State, who: Name, leader: Name): State
    requires who in s.seats && leader in s.parties
  {
    State(s.seats[who := s.seats[who].(group := None)], s.parties[leader := s.parties[leader] - {who}])
  }

  function Joined(s: State, who: Name, leader: Name): State
    requires who in s.seats
  {
    if leader !in s.parties then Tell(s, who, [NOT_LEADER])
    else if s.seats[who].group.Some? then Tell(s, who, [IN_GROUP])
    else Tell(TellAll(Inside(s, who, leader), s.parties[leader] - {who}, Joining(who)), who, [JoinedGroup(leader)])
  }

  /** What a member hears when its group is disbanded: the leader leaving and itself leaving. */
  function Farewell(leader: Name, n: Name): seq<Line> {
    if n == leader then [] else [Leaving(leader), Leaving(n)]
  }

  /** A leader leaving: the group is gone for all its members. */
  function Disbanded(s: State, leader: Name): State
    requires leader in s.parties
  {
    var members := s.parties[leader];
    State(map n | n in s.seats ::
            if n !in members then s.seats[n]
            else Seat(None, s.seats[n].lines + Farewell(leader, n)),
          s.parties - {leader})
  }

  function Departed(s: State, who: Name, leader: Name): State
    requires who in s.seats && leader in s.parties
  {
    TellAll(Outside(s, who, leader), s.parties[leader] - {who}, Leaving(who))
  }

  function Released(s: State, who: Name): State
    requires who in s.seats
  {
    match s.seats[who].group
    case None => s
    case Some(leader) =>
      if leader !in s.parties then s
      else if leader == who then Disbanded(s, who)
      else Departed(s, who, leader)
  }

  function Left(s: State, who: Name): State
    requires who in s.seats
  {
    if s.seats[who].group.None? then Tell(s, who, [NOT_IN_GROUP])
    else Tell(Released(s, who), who, [Ok, Leaving(who)])
  }

  function Chatted(s: State, who: Name, message: string): State
    requires who in s.seats
  {
    match s.seats[who].group
    case None => Tell(s, who, [NOT_IN_GROUP])
    case Some(leader) =>
      var others := if leader in s.parties then s.parties[leader] - {who} else {};
      Tell(TellAll(s, others, Message(who, message)), who, [Ok])
  }

  function Gone(s: State, who: Name): State
    requires who in s.seats
  {
    var t := Released(s, who);
    t.(seats := t.seats - {who})
  }

  /** A command runs for an online player; a login takes a fresh name the name check accepts. */
  predicate Enabled(s: State, c: Command) {
    if c.Login? then IsWord(c.who) && c.who !in s.seats else c.who in s.seats
  }

  function Next(s: State, c: Command): State
    requires Enabled(s, c)
  {
    match c
    case Login(who) => s.(seats := s.seats[who := Seat(None, [])])
    case Create(who) => Created(s, who)
    case Invite(who, invitee) => Invited(s, who, invitee)
    case Join(who, leader) => Joined(s, who, leader)
    case Leave(who) => Left(s, who)
    case GroupChat(who, message) => Chatted(s, who, message)
    case Quit(who) => Gone(s, who)
  }

  // ---- What stays true ----

  ghost predicate Registered(s: State) {
    forall n :: n in s.seats && s.seats[n].group.Some? ==>
                  s.seats[n].group.value in s.parties && n in s.parties[s.seats[n].group.value]
  }

  ghost predicate MembersAgree(s: State) {
    forall l, n :: l in s.parties && n in s.parties[l] ==> n in s.seats && s.seats[n].group == Some(l)
  }

  ghost predicate Led(s: State) {
    forall l :: l in s.parties ==> l in s.parties[l]
  }

  ghost predicate Words(s: State) {
    forall n :: n in s.seats ==> IsWord(n)
  }

  /** Members are exactly the players whose group it is; the leader is one of them, and so
      online; and nobody is in a group that is not registered. */
  ghost predicate Inv(s: State) {
    Registered(s) && MembersAgree(s) && Led(s) && Words(s)
  }

  lemma CreatedKeeps(s: State, who: Name)
    requires Inv(s) && who in s.seats
    ensures Inv(Created(s, who))
  {
  }

  lemma TellKeeps(s: State, who: Name, lines: seq<Line>)
    requires Inv(s)
    ensures Inv(Tell(s, who, lines))
  {
  }

  lemma TellAllKeeps(s: State, who: set<Name>, line: Line)
    requires Inv(s)
    ensures Inv(TellAll(s, who, line))
  {
  }

  lemma JoinedKeeps(s: State, who: Name, leader: Name)
    requires Inv(s) && who in s.seats
    ensures Inv(Joined(s, who, leader))
  {
    if leader in s.parties && s.seats[who].group.None? {
      assert Inv(Inside(s, who, leader));
      TellAllKeeps(Inside(s, who, leader), s.parties[leader] - {who}, Joining(who));
    }
  }

  lemma DisbandedKeeps(s: State, leader: Name)
    requires Inv(s) && leader in s.parties
    ensures Inv(Disbanded(s, leader))
    ensures forall n :: n in s.parties[leader] ==> n in Disbanded(s, leader).seats && Disbanded(s, leader).seats[n].group.None?
  {
  }

  lemma DepartedKeeps(s: State, who: Name, leader: Name)
    requires Inv(s) && who in s.seats && s.seats[who].group == Some(leader) && leader != who
    ensures Inv(Departed(s, who, leader))
    ensures who in Departed(s, who, leader).seats && Departed(s, who, leader).seats[who].group.None?
  {
    assert Inv(Outside(s, who, leader));
    TellAllKeeps(Outside(s, who, leader), s.parties[leader] - {who}, Leaving(who));
  }

  lemma ReleasedKeeps(s: State, who: Name)
    requires Inv(s) && who in s.seats
    ensures Inv(Released(s, who)) && who in Released(s, who).seats && Released(s, who).seats[who].group.None?
  {
    if s.seats[who].group.Some? {
      if s.seats[who].group.value == who {
        DisbandedKeeps(s, who);
      } else {
        DepartedKeeps(s, who, s.seats[who].group.value);
      }
    }
  }

  lemma LeftKeeps(s: State, who: Name)
    requires Inv(s) && who in s.seats
    ensures Inv(Left(s, who))
  {
    ReleasedKeeps(s, who);
    TellKeeps(s, who, [NOT_IN_GROUP]);
    TellKeeps(Released(s, who), who, [Ok, Leaving(who)]);
  }

  lemma InvitedKeeps(s: State, who: Name, invitee: Name)
    requires Inv(s) && who in s.seats
    ensures Inv(Invited(s, who, invitee))
  {
    TellKeeps(s, invitee, [Invitation(who)]);
    TellKeeps(Tell(s, invitee, [Invitation(who)]), who, [Ok]);
  }

  lemma ChattedKeeps(s: State, who: Name, message: string)
    requires Inv(s) && who in s.seats
    ensures Inv(Chatted(s, who, message))
  {
    if s.seats[who].group.Some? {
      var others := s.parties[s.seats[who].group.value] - {who};
      TellAllKeeps(s, others, Message(who, message));
      TellKeeps(TellAll(s, others, Message(who, message)), who, [Ok]);
    } else {
      TellKeeps(s, who, [NOT_IN_GROUP]);
    }
  }

  lemma GoneKeeps(s: State, who: Name)
    requires Inv(s) && who in s.seats
    ensures Inv(Gone(s, who))
  {
    ReleasedKeeps(s, who);
    var t := Released(s, who);
    assert forall l :: l in t.parties ==> who !in t.parties[l];
  }

  lemma NextKeeps(s: State, c: Command)
    requires Inv(s) && Enabled(s, c)
    ensures Inv(Next(s, c))
  {
    match c
    case Login(_) =>
    case Create(who) => CreatedKeeps(s, who);
    case Invite(who, invitee) => InvitedKeeps(s, who, invitee);
    case Join(who, leader) => JoinedKeeps(s, who, leader);
    case Leave(who) => LeftKeeps(s, who);
    case GroupChat(who, message) => ChattedKeeps(s, who, message);
    case Quit(who) => GoneKeeps(s, who);
  }

  const EMPTY := State(map[], map[])

  /** The state after a run of commands; commands that are not enabled never happen. */
  function After(run: seq<Command>): State {
    if run == [] then EMPTY
    else
      var s := After(run[..|run| - 1]);
      if Enabled(s, run[|run| - 1]) then Next(s, run[|run| - 1]) else s
  }

  lemma {:induction false} RunKeeps(run: seq<Command>)
    ensures Inv(After(run))
  {
    if run != [] {
      RunKeeps(run[..|run| - 1]);
      var s, c := After(run[..|run| - 1]), run[|run| - 1];
      if Enabled(s, c) {
        NextKeeps(s, c);
      }
    }
  }

  lemma MembersApart(s: State, l: Name, m: Name)
    requires MembersAgree(s) && l in s.parties && m in s.parties && l != m
    ensures s.parties[l] !! s.parties[m]
  {
    forall n | n in s.parties[l] ensures n !in s.parties[m] {
      assert s.seats[n].group == Some(l);
    }
  }

  /** In every run a group's members are exactly the players whose group it is, so no two
      groups share one, and its leader is online and in it. */
  lemma GroupsAreApart(run: seq<Command>, l: Name)
    requires l in After(run).parties
    ensures var s := After(run);
      && (forall n :: n in s.parties[l] <==> n in s.seats && s.seats[n].group == Some(l))
      && l in s.seats && s.seats[l].group == Some(l)
      && forall m :: m in s.parties && m != l ==> s.parties[l] !! s.parties[m]
  {
    RunKeeps(run);
    var s := After(run);
    forall m | m in s.parties && m != l ensures s.parties[l] !! s.parties[m] {
      MembersApart(s, l, m);
    }
  }
}
