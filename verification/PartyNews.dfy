/** Who is in which group after a command and what every player is told, read off the players
    alone: the registry of groups adds nothing to it. */
module PartyNews {
  import opened Wrappers
  import opened GoStrings
  import opened Wire
  import opened Parties

  type Seats = map<Name, Seat>

  /** A group is named after its leader, who is in it. */
  predicate IsGroup(seats: Seats, leader: Name) {
    leader in seats && seats[leader].group == Some(leader)
  }

  predicate Mates(seats: Seats, n: Name, m: Name) {
    n in seats && m in seats && n != m && seats[n].group.Some? && seats[n].group == seats[m].group
  }

  /** Why an invitation is refused, in the order of the checks. */
  function InviteProblem(seats: Seats, who: Name, invitee: Name): Option<Problem>
    requires who in seats
  {
    if invitee !in seats then Some(PlayerNotFound)
    else if seats[who].group == None then Some(NotInGroup)
    else if invitee == who then Some(InvalidCommand)
    else if !IsGroup(seats, who) then Some(NotLeader)
    else if seats[invitee].group != None then Some(InGroup)
    else None
  }

  function JoinProblem(seats: Seats, who: Name, leader: Name): Option<Problem>
    requires who in seats
  {
    if !IsGroup(seats, leader) then Some(NotLeader) else if seats[who].group != None then Some(InGroup) else None
  }

  /** The answer to the player who gave the command. */
  function Answer(seats: Seats, c: Command): seq<Line>
    requires c.who in seats
  {
    match c
    case Login(_) => []
    case Create(who) => [if seats[who].group == None then CreatedGroup(who) else Refusal(InGroup)]
    case Invite(who, invitee) =>
      var problem := InviteProblem(seats, who, invitee);
      [if problem.Some? then Refusal(problem.value) else Ok]
    case Join(who, leader) =>
      var problem := JoinProblem(seats, who, leader);
      [if problem.Some? then Refusal(problem.value) else JoinedGroup(leader)]
    case Leave(who) => if seats[who].group == None then [Refusal(NotInGroup)] else [Ok, Leaving(who)]
    case GroupChat(who, _) => [if seats[who].group == None then Refusal(NotInGroup) else Ok]
    case Quit(_) => []
  }

  /** What another player hears of it. */
  function Overhears(seats: Seats, c: Command, n: Name): seq<Line>
    requires c.who in seats && n in seats && n != c.who
  {
    match c
    case Login(_) => []
    case Create(_) => []
    case Invite(who, invitee) => if n == invitee && InviteProblem(seats, who, invitee) == None then [Invitation(who)] else []
    case Join(who, leader) =>
      if JoinProblem(seats, who, leader) == None && seats[n].group == Some(leader) then [Joining(who)] else []
    case Leave(who) => if Mates(seats, who, n) then Goodbye(seats, who, n) else []
    case GroupChat(who, message) => if Mates(seats, who, n) then [Message(who, message)] else []
    case Quit(who) => if Mates(seats, who, n) then Goodbye(seats, who, n) else []
  }

  function Goodbye(seats: Seats, who: Name, n: Name): seq<Line> {
    if IsGroup(seats, who) then [Leaving(who), Leaving(n)] else [Leaving(who)]
  }

  /** The group a player is in after it. */
  function GroupAfter(seats: Seats, c: Command, n: Name): Option<Name>
    requires c.who in seats && n in seats
  {
    match c
    case Create(who) => if n == who && seats[who].group == None then Some(who) else seats[n].group
    case Join(who, leader) => if n == who && JoinProblem(seats, who, leader) == None then Some(leader) else seats[n].group
    case Leave(who) => if n == who || (IsGroup(seats, who) && Mates(seats, who, n)) then None else seats[n].group
    case Quit(who) => if n == who || (IsGroup(seats, who) && Mates(seats, who, n)) then None else seats[n].group
    case _ => seats[n].group
  }

  ghost predicate AsForeseen(s: State, t: State, c: Command, n: Name)
    requires c.who in s.seats && n in s.seats
  {
    n in t.seats && t.seats[n] ==
      Seat(GroupAfter(s.seats, c, n),
           s.seats[n].lines + (if n == c.who then Answer(s.seats, c) else Overhears(s.seats, c, n)))
  }

  lemma GroupsAreLed(s: State, l: Name)
    requires Inv(s)
    ensures l in s.parties <==> IsGroup(s.seats, l)
  {
  }

  lemma CreateNews(s: State, who: Name, n: Name)
    requires Inv(s) && who in s.seats && n in s.seats
    ensures AsForeseen(s, Next(s, Create(who)), Create(who), n)
  {
  }

  lemma InviteNews(s: State, who: Name, invitee: Name, n: Name)
    requires Inv(s) && who in s.seats && n in s.seats
    ensures AsForeseen(s, Next(s, Invite(who, invitee)), Invite(who, invitee), n)
  {
  }

  lemma JoinNews(s: State, who: Name, leader: Name, n: Name)
    requires Inv(s) && who in s.seats && n in s.seats
    ensures AsForeseen(s, Next(s, Join(who, leader)), Join(who, leader), n)
  {
    GroupsAreLed(s, leader);
  }

  lemma LeaveNews(s: State, who: Name, n: Name)
    requires Inv(s) && who in s.seats && n in s.seats
    ensures AsForeseen(s, Next(s, Leave(who)), Leave(who), n)
  {
    GroupsAreLed(s, who);
  }

  lemma ChatNews(s: State, who: Name, message: string, n: Name)
    requires Inv(s) && who in s.seats && n in s.seats
    ensures AsForeseen(s, Next(s, GroupChat(who, message)), GroupChat(who, message), n)
  {
  }

  lemma QuitNews(s: State, who: Name, n: Name)
    requires Inv(s) && who in s.seats && n in s.seats && n != who
    ensures AsForeseen(s, Next(s, Quit(who)), Quit(who), n)
  {
    GroupsAreLed(s, who);
  }

  /** Every command does to every player what can be foreseen from the players' groups: exactly the
      members of the group hear of a chat, a join, a departure; the answer goes to the one who gave
      the command; and nobody else is told anything or moved. */
  lemma NewsForAll(run: seq<Command>, c: Command)
    requires Enabled(After(run), c)
    ensures var s, t := After(run), Next(After(run), c);
      && (forall n :: n in t.seats <==> (n in s.seats && c != Quit(n)) || c == Login(n))
      && (c.Login? ==> t.seats[c.who] == Seat(None, []) && forall n :: n in s.seats ==> t.seats[n] == s.seats[n])
      && (!c.Login? ==> forall n :: n in t.seats ==> AsForeseen(s, t, c, n))
  {
    RunKeeps(run);
    var s, t := After(run), Next(After(run), c);
    SeatsAfter(s, c);
    if !c.Login? {
      forall n | n in t.seats ensures AsForeseen(s, t, c, n) {
        match c {
          case Create(who) => CreateNews(s, who, n);
          case Invite(who, invitee) => InviteNews(s, who, invitee, n);
          case Join(who, leader) => JoinNews(s, who, leader, n);
          case Leave(who) => LeaveNews(s, who, n);
          case GroupChat(who, message) => ChatNews(s, who, message, n);
          case Quit(who) => QuitNews(s, who, n);
          case _ =>
        }
      }
    }
  }

  lemma SeatsAfter(s: State, c: Command)
    requires Enabled(s, c)
    ensures forall n :: n in Next(s, c).seats <==> (n in s.seats && c != Quit(n)) || c == Login(n)
  {
  }

  // ---- The refusals as they are read ----

  lemma ReadsRefusal(problem: Problem, code: nat, text: string)
    requires Print(Refusal(problem)) == ErrorLine(code, text) && code <= 999 && text != "" && !IsSpace(text[|text| - 1])
    ensures ParseServerReply(Print(Refusal(problem))) == Error(code, text)
  {
    ErrorRoundTrip(code, text);
  }

  lemma GroupRefusals()
    ensures Print(Refusal(NotInGroup)) == ErrorLine(401, "NOT_IN_GROUP")
    ensures Print(Refusal(NotLeader)) == ErrorLine(401, "NOT_GROUP_LEADER")
    ensures Print(Refusal(InGroup)) == ErrorLine(402, "ALREADY_IN_GROUP")
  {
  }

  lemma OtherRefusals()
    ensures Print(Refusal(PlayerNotFound)) == ErrorLine(404, "PLAYER_NOT_FOUND")
    ensures Print(Refusal(InvalidCommand)) == ErrorLine(666, "INVALID_COMMAND")
  {
  }

  /** Each refusal reaches the client with its own code and text. */
  lemma RefusalsAreRead(problem: Problem)
    ensures ParseServerReply(Print(Refusal(problem))) ==
            match problem
            case NotInGroup => Error(401, "NOT_IN_GROUP")
            case NotLeader => Error(401, "NOT_GROUP_LEADER")
            case InGroup => Error(402, "ALREADY_IN_GROUP")
            case PlayerNotFound => Error(404, "PLAYER_NOT_FOUND")
            case InvalidCommand => Error(666, "INVALID_COMMAND")
  {
    GroupRefusals();
    OtherRefusals();
    match problem
    case NotInGroup => ReadsRefusal(problem, 401, "NOT_IN_GROUP");
    case NotLeader => ReadsRefusal(problem, 401, "NOT_GROUP_LEADER");
    case InGroup => ReadsRefusal(problem, 402, "ALREADY_IN_GROUP");
    case PlayerNotFound => ReadsRefusal(problem, 404, "PLAYER_NOT_FOUND");
    case InvalidCommand => ReadsRefusal(problem, 666, "INVALID_COMMAND");
  }
}
