/** The client's group light: what it makes of the lines it hears, against the server's truth. */
module ClientMirror {
  import opened Wrappers
  import opened GoStrings
  import opened Wire
  import opened Parties

  /** One reply's effect on the light of a client logged in as me. */
  function Heed(me: Name, inGroup: bool, reply: Reply): bool {
    match reply
    case Group(action, byWho) =>
      if action == "CREATE" || action == "JOIN" then true
      else if action == "LEAVE" && byWho == me then false
      else inGroup
    case _ => inGroup
  }

  /** The light after a sequence of lines as they come off the wire. */
  function Light(me: Name, heard: seq<string>): bool {
    if heard == [] then false
    else Heed(me, Light(me, heard[..|heard| - 1]), ParseServerReply(heard[|heard| - 1]))
  }

  class Router {
    const me: Name
    var inGroup: bool
    ghost var heard: seq<string>

    ghost predicate Valid()
      reads this
    {
      inGroup == Light(me, heard)
    }

    constructor (me: Name)
      ensures Valid() && this.me == me && heard == []
    {
      this.me := me;
      inGroup := false;
      heard := [];
    }

    method HandleGroup(action: string, byWho: string)
      modifies this`inGroup
      ensures inGroup == Heed(me, old(inGroup), Reply.Group(action, byWho))
    {
      if action == "CREATE" {
        inGroup := true;
      } else if action == "JOIN" {
        if !inGroup {
          inGroup := true;
        }
      } else if action == "LEAVE" {
        if byWho == me {
          inGroup := false;
        }
      }
    }

    /** One line from the server, parsed and dispatched. */
    method Receive(line: string)
      requires Valid()
      modifies this
      ensures Valid() && heard == old(heard) + [line]
    {
      var reply := ParseServerReply(line);
      if reply.Group? {
        HandleGroup(reply.action, reply.byWho);
      }
      heard := heard + [line];
      assert heard[..|heard| - 1] == old(heard);
    }
  }

  // ---- What the lines mean ----

  /** What a line ought to do to the light. */
  function Effect(me: Name, inGroup: bool, line: Line): bool {
    match line
    case CreatedGroup(_) => true
    case JoinedGroup(_) => true
    case Joining(_) => true
    case Leaving(who) => inGroup && who != me
    case _ => inGroup
  }

  /** The light as it ought to be. */
  function Lamp(me: Name, lines: seq<Line>): bool {
    if lines == [] then false else Effect(me, Lamp(me, lines[..|lines| - 1]), lines[|lines| - 1])
  }

  /** The names in a line are words. */
  predicate Spoken(line: Line) {
    match line
    case CreatedGroup(leader) => IsWord(leader)
    case JoinedGroup(leader) => IsWord(leader)
    case Invitation(who) => IsWord(who)
    case Joining(who) => IsWord(who)
    case Leaving(who) => IsWord(who)
    case Message(who, _) => IsWord(who)
    case _ => true
  }

  function Printed(lines: seq<Line>): seq<string> {
    if lines == [] then [] else Printed(lines[..|lines| - 1]) + [Print(lines[|lines| - 1])]
  }

  lemma TextEnds(problem: Problem)
    ensures TextOf(problem) != "" && !IsSpace(TextOf(problem)[|TextOf(problem)| - 1])
  {
  }

  lemma ErrorIsQuiet(me: Name, inGroup: bool, code: nat, text: string)
    requires code <= MAX_INT && text != "" && !IsSpace(text[|text| - 1])
    ensures Heed(me, inGroup, ParseServerReply(ErrorLine(code, text))) == inGroup
  {
    ErrorRoundTrip(code, text);
  }

  lemma ProblemIsQuiet(me: Name, inGroup: bool, problem: Problem)
    ensures Heed(me, inGroup, ParseServerReply(PrintProblem(problem))) == inGroup
  {
    TextEnds(problem);
    ErrorIsQuiet(me, inGroup, CodeOf(problem), TextOf(problem));
  }

  lemma ReplyHeeded(me: Name, inGroup: bool, leader: Name)
    requires IsWord(leader)
    ensures Heed(me, inGroup, ParseServerReply(GroupCreated(leader)))
    ensures Heed(me, inGroup, ParseServerReply(GroupJoined(leader)))
  {
    GroupReplyRoundTrip(leader);
  }

  lemma EventHeeded(me: Name, inGroup: bool, who: Name)
    requires IsWord(who)
    ensures Heed(me, inGroup, ParseServerReply(EvtPartyInvite(who))) == inGroup
    ensures Heed(me, inGroup, ParseServerReply(EvtPartyJoin(who)))
    ensures Heed(me, inGroup, ParseServerReply(EvtPartyLeave(who))) == (inGroup && who != me)
  {
    GroupRoundTrip(who);
  }

  /** Group chat moves no light, although its lines begin like group events. */
  lemma ChatIsQuiet(me: Name, inGroup: bool, who: Name, text: string)
    requires IsWord(who)
    ensures Heed(me, inGroup, ParseServerReply(EvtPartyChat(who, text))) == inGroup
  {
    ChatRoundTrip(who, text);
  }

  lemma OkIsQuiet(me: Name, inGroup: bool)
    ensures Heed(me, inGroup, ParseServerReply("OK")) == inGroup
  {
    OkRoundTrip();
  }

  /** The client makes of every printed line what the line means. */
  lemma HeededAsMeant(me: Name, inGroup: bool, line: Line)
    requires Spoken(line)
    ensures Heed(me, inGroup, ParseServerReply(Print(line))) == Effect(me, inGroup, line)
  {
    match line
    case Ok => OkIsQuiet(me, inGroup);
    case Refusal(problem) => ProblemIsQuiet(me, inGroup, problem);
    case CreatedGroup(leader) => ReplyHeeded(me, inGroup, leader);
    case JoinedGroup(leader) => ReplyHeeded(me, inGroup, leader);
    case Invitation(who) => EventHeeded(me, inGroup, who);
    case Joining(who) => EventHeeded(me, inGroup, who);
    case Leaving(who) => EventHeeded(me, inGroup, who);
    case Message(who, text) => ChatIsQuiet(me, inGroup, who, text);
  }

  /** And so of any sequence of them. */
  lemma {:induction false} LightIsLamp(me: Name, lines: seq<Line>)
    requires AllSpoken(lines)
    ensures Light(me, Printed(lines)) == Lamp(me, lines)
  {
    if lines != [] {
      var before, line := lines[..|lines| - 1], lines[|lines| - 1];
      LightIsLamp(me, before);
      HeededAsMeant(me, Light(me, Printed(before)), line);
      LightAdd(me, Printed(before), Print(line));
    }
  }

  lemma LightAdd(me: Name, heard: seq<string>, line: string)
    ensures Light(me, heard + [line]) == Heed(me, Light(me, heard), ParseServerReply(line))
  {
    assert (heard + [line])[..|heard|] == heard;
  }

  predicate AllSpoken(lines: seq<Line>) {
    lines == [] || (AllSpoken(lines[..|lines| - 1]) && Spoken(lines[|lines| - 1]))
  }

  // ---- The light tells the truth ----

  /** What a seat must be: the lamp is on exactly when the player is in a group. */
  ghost predicate Shows(n: Name, seat: Seat) {
    Lamp(n, seat.lines) == seat.group.Some? && AllSpoken(seat.lines)
  }

  ghost predicate Truthful(s: State) {
    forall n :: n in s.seats ==> Shows(n, s.seats[n])
  }

  lemma LampAdd(me: Name, lines: seq<Line>, line: Line)
    ensures Lamp(me, lines + [line]) == Effect(me, Lamp(me, lines), line)
    ensures AllSpoken(lines) && Spoken(line) ==> AllSpoken(lines + [line])
  {
    assert (lines + [line])[..|lines|] == lines;
  }

  lemma LampAddTwo(me: Name, lines: seq<Line>, a: Line, b: Line)
    ensures Lamp(me, lines + [a, b]) == Effect(me, Effect(me, Lamp(me, lines), a), b)
    ensures AllSpoken(lines) && Spoken(a) && Spoken(b) ==> AllSpoken(lines + [a, b])
  {
    assert lines + [a, b] == lines + [a] + [b];
    LampAdd(me, lines, a);
    LampAdd(me, lines + [a], b);
  }

  /** A line that means nothing to the light, to one player or to several. */
  lemma QuietTell(s: State, who: Name, line: Line)
    requires Truthful(s) && Spoken(line) && (line.Ok? || line.Refusal? || line.Invitation?)
    ensures Truthful(Tell(s, who, [line]))
  {
    if who in s.seats {
      LampAdd(who, s.seats[who].lines, line);
    }
  }

  lemma TellAllTruthful(s: State, who: set<Name>, line: Line)
    requires Truthful(s) && Spoken(line)
    requires forall n :: n in who && n in s.seats ==> Effect(n, s.seats[n].group.Some?, line) == s.seats[n].group.Some?
    ensures Truthful(TellAll(s, who, line))
  {
    var t := TellAll(s, who, line);
    forall n | n in t.seats ensures Shows(n, t.seats[n]) {
      assert Shows(n, s.seats[n]);
      LampAdd(n, s.seats[n].lines, line);
    }
  }

  lemma CreatedTruthful(s: State, who: Name)
    requires Inv(s) && Truthful(s) && who in s.seats
    ensures Truthful(Created(s, who))
  {
    QuietTell(s, who, IN_GROUP);
    LampAdd(who, s.seats[who].lines, CreatedGroup(who));
  }

  lemma InvitedTruthful(s: State, who: Name, invitee: Name)
    requires Inv(s) && Truthful(s) && who in s.seats
    ensures Truthful(Invited(s, who, invitee))
  {
    QuietTell(s, invitee, Invitation(who));
    QuietTell(Tell(s, invitee, [Invitation(who)]), who, Ok);
    QuietTell(s, who, PLAYER_NOT_FOUND);
    QuietTell(s, who, NOT_IN_GROUP);
    QuietTell(s, who, INVALID_COMMAND);
    QuietTell(s, who, NOT_LEADER);
    QuietTell(s, who, IN_GROUP);
  }

  /** Each seat after a join that goes through. */
  lemma JoinedSeat(s: State, who: Name, leader: Name, n: Name)
    requires who in s.seats && leader in s.parties && s.seats[who].group.None? && n in s.seats
    ensures n in Joined(s, who, leader).seats
    ensures Joined(s, who, leader).seats[n] ==
            if n == who then Seat(Some(leader), s.seats[n].lines + [JoinedGroup(leader)])
            else if n in s.parties[leader] then s.seats[n].(lines := s.seats[n].lines + [Joining(who)])
            else s.seats[n]
  {
  }

  lemma JoinedKeys(s: State, who: Name, leader: Name)
    requires who in s.seats
    ensures Joined(s, who, leader).seats.Keys == s.seats.Keys
  {
  }

  lemma JoinerTruthful(s: State, who: Name, leader: Name)
    requires Inv(s) && Truthful(s) && who in s.seats && leader in s.parties && s.seats[who].group.None?
    ensures Truthful(Joined(s, who, leader))
  {
    JoinedKeys(s, who, leader);
    forall n | n in s.seats ensures n in Joined(s, who, leader).seats && Shows(n, Joined(s, who, leader).seats[n]) {
      JoinedSeat(s, who, leader, n);
      assert Shows(n, s.seats[n]);
      LampAdd(n, s.seats[n].lines, if n == who then JoinedGroup(leader) else Joining(who));
    }
  }

  lemma JoinedTruthful(s: State, who: Name, leader: Name)
    requires Inv(s) && Truthful(s) && who in s.seats
    ensures Truthful(Joined(s, who, leader))
  {
    if leader !in s.parties {
      QuietTell(s, who, NOT_LEADER);
    } else if s.seats[who].group.Some? {
      QuietTell(s, who, IN_GROUP);
    } else {
      JoinerTruthful(s, who, leader);
    }
  }

  /** After a player is released, every other light is right; its own still shows the group. */
  ghost predicate TruthfulBut(s: State, who: Name) {
    forall n :: n in s.seats && n != who ==> Shows(n, s.seats[n])
  }

  lemma DisbandedTruthful(s: State, leader: Name)
    requires Inv(s) && Truthful(s) && leader in s.parties
    ensures TruthfulBut(Disbanded(s, leader), leader)
  {
    var t := Disbanded(s, leader);
    forall n | n in t.seats && n != leader ensures Shows(n, t.seats[n]) {
      assert Shows(n, s.seats[n]);
      LampAddTwo(n, s.seats[n].lines, Leaving(leader), Leaving(n));
    }
  }

  lemma DepartedTruthful(s: State, who: Name, leader: Name)
    requires Inv(s) && Truthful(s) && who in s.seats && s.seats[who].group == Some(leader) && leader != who
    ensures TruthfulBut(Departed(s, who, leader), who)
  {
    var t := Departed(s, who, leader);
    forall n | n in t.seats && n != who ensures Shows(n, t.seats[n]) {
      assert Shows(n, s.seats[n]);
      LampAdd(n, s.seats[n].lines, Leaving(who));
    }
  }

  lemma ReleasedTruthful(s: State, who: Name)
    requires Inv(s) && Truthful(s) && who in s.seats
    ensures TruthfulBut(Released(s, who), who) && who in Released(s, who).seats && AllSpoken(Released(s, who).seats[who].lines)
  {
    assert Shows(who, s.seats[who]) && s.seats[who].lines + [] == s.seats[who].lines;
    if s.seats[who].group.Some? {
      if s.seats[who].group.value == who {
        DisbandedTruthful(s, who);
      } else {
        DepartedTruthful(s, who, s.seats[who].group.value);
      }
    }
  }

  lemma LeftTruthful(s: State, who: Name)
    requires Inv(s) && Truthful(s) && who in s.seats
    ensures Truthful(Left(s, who))
  {
    QuietTell(s, who, NOT_IN_GROUP);
    if s.seats[who].group.Some? {
      ReleasedTruthful(s, who);
      ReleasedKeeps(s, who);
      LampAddTwo(who, Released(s, who).seats[who].lines, Ok, Leaving(who));
    }
  }

  lemma ChattedTruthful(s: State, who: Name, message: string)
    requires Inv(s) && Truthful(s) && who in s.seats
    ensures Truthful(Chatted(s, who, message))
  {
    QuietTell(s, who, NOT_IN_GROUP);
    if s.seats[who].group.Some? {
      var others := s.parties[s.seats[who].group.value] - {who};
      TellAllTruthful(s, others, Message(who, message));
      QuietTell(TellAll(s, others, Message(who, message)), who, Ok);
    }
  }

  lemma NextTruthful(s: State, c: Command)
    requires Inv(s) && Truthful(s) && Enabled(s, c)
    ensures Truthful(Next(s, c))
  {
    match c
    case Login(who) =>
    case Create(who) => CreatedTruthful(s, who);
    case Invite(who, invitee) => InvitedTruthful(s, who, invitee);
    case Join(who, leader) => JoinedTruthful(s, who, leader);
    case Leave(who) => LeftTruthful(s, who);
    case GroupChat(who, message) => ChattedTruthful(s, who, message);
    case Quit(who) => ReleasedTruthful(s, who);
  }

  lemma {:induction false} AfterTruthful(run: seq<Command>)
    ensures Truthful(After(run))
  {
    if run != [] {
      var before := run[..|run| - 1];
      AfterTruthful(before);
      RunKeeps(before);
      if Enabled(After(before), run[|run| - 1]) {
        NextTruthful(After(before), run[|run| - 1]);
      }
    }
  }

  /** In every run, for every player online at its end, the client's light, folded over the
      lines as they were printed, is on exactly when the server has the player in a group. */
  lemma MirrorAgrees(run: seq<Command>, n: Name)
    requires n in After(run).seats
    ensures var seat := After(run).seats[n]; Light(n, Printed(seat.lines)) <==> seat.group.Some?
  {
    AfterTruthful(run);
    assert Shows(n, After(run).seats[n]);
    LightIsLamp(n, After(run).seats[n].lines);
  }
}
