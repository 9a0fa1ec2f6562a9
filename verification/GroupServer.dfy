/** The group commands as the server runs them, on players and groups that point to each other. */
module GroupServer {
  import opened Wrappers
  import opened GoStrings
  import opened Wire
  import opened Parties

  class Player {
    const username: Name
    var groupInfo: Group?
    var lines: seq<Line>

    constructor (username: Name)
      ensures this.username == username && groupInfo == null && lines == []
    {
      this.username := username;
      groupInfo := null;
      lines := [];
    }

    method Send(line: Line)
      modifies this`lines
      ensures lines == old(lines) + [line]
    {
      lines := lines + [line];
    }

    function AsSeat(): Seat
      reads this
    {
      Parties.Seat(if groupInfo == null then None else Some(groupInfo.leaderName), lines)
    }
  }

  class Group {
    const leaderName: Name
    var members: map<Name, Player>

    constructor (leader: Player)
      ensures leaderName == leader.username && members == map[leader.username := leader]
    {
      leaderName := leader.username;
      members := map[leader.username := leader];
    }
  }

  class Server {
    var parties: map<Name, Group>
    var online: map<Name, Player>
    ghost var players: set<Player>
    ghost var groups: set<Group>

    constructor ()
      ensures Valid() && State() == EMPTY
    {
      parties := map[];
      online := map[];
      players, groups := {}, {};
    }

    /** Pointers agree: a player's group is the registered one, and a group's member objects
        are the players online under those names. */
    ghost predicate Valid()
      reads this, players, groups
    {
      Flat() && Pointing() && Listed()
    }

    ghost predicate Named()
      reads this
    {
      forall n :: n in online ==> online[n] in players && online[n].username == n
    }

    ghost predicate Pointing()
      reads this, players, groups
    {
      forall n :: n in online && online[n] in players && online[n].groupInfo != null ==>
                    Registered(online[n].groupInfo) && online[n].groupInfo in groups && n in online[n].groupInfo.members
    }

    ghost predicate Led()
      reads this, groups
    {
      forall l :: l in parties ==> parties[l] in groups && parties[l].leaderName == l && l in parties[l].members
    }

    ghost predicate Listed()
      reads this, players, groups
    {
      forall l, n :: l in parties && parties[l] in groups && n in parties[l].members ==> Seated(l, n, parties[l].members[n])
    }

    ghost predicate Seated(l: Name, n: Name, p: Player)
      reads this, players
      requires l in parties
    {
      n in online && online[n] == p && p in players && p.groupInfo == parties[l]
    }

    ghost predicate Registered(g: Group)
      reads this
    {
      g.leaderName in parties && parties[g.leaderName] == g
    }

    ghost predicate Flat()
      reads this, groups
    {
      Named() && Led()
    }

    ghost function State(): State
      requires Flat()
      reads this, players, groups
    {
      Parties.State(map n | n in online :: online[n].AsSeat(), map l | l in parties :: parties[l].members.Keys)
    }

    /** What the pointers say is what the group invariant says. */
    lemma ValidIsLinked()
      requires Valid()
      ensures Parties.Registered(State()) && MembersAgree(State()) && Parties.Led(State())
    {
    }

    // ---- Sending ----

    ghost predicate Online(p: Player)
      reads this
    {
      p.username in online && online[p.username] == p
    }

    /** Nothing but the lines of one player changes. */
    twostate predicate Telling(p: Player, line: Line)
      reads this, players, groups, p
    {
      && old(Flat()) && old(Online(p)) && online == old(online) && parties == old(parties)
      && players == old(players) && groups == old(groups)
      && p.lines == old(p.lines) + [line] && p.groupInfo == old(p.groupInfo)
      && (forall n :: n in online && online[n] != p ==> Untouched(online[n]))
      && (forall l :: l in parties ==> parties[l].members == old(parties[l].members))
    }

    twostate lemma TellingKeeps(p: Player, new line: Line)
      requires old(Valid()) && Telling(p, line)
      ensures Valid()
    {
      forall n | n in online && online[n].groupInfo != null
        ensures Registered(online[n].groupInfo) && online[n].groupInfo in groups && n in online[n].groupInfo.members
      {
        assert old(Registered(online[n].groupInfo));
      }
      forall l, n | l in parties && n in parties[l].members ensures Seated(l, n, parties[l].members[n]) {
        assert old(Seated(l, n, parties[l].members[n]));
      }
    }

    twostate lemma TellingTells(p: Player, new line: Line)
      requires Telling(p, line) && Flat()
      ensures State() == Tell(old(State()), p.username, [line])
    {
      assert State().seats == Tell(old(State()), p.username, [line]).seats;
      assert State().parties == old(State()).parties;
    }

    method TellOne(p: Player, line: Line)
      requires Valid() && Online(p)
      modifies p`lines
      ensures Valid() && State() == Tell(old(State()), p.username, [line])
    {
      p.Send(line);
      TellingKeeps(p, line);
      TellingTells(p, line);
    }

    /** A group's member objects are the players online under those names. */
    ghost predicate OnlineMembers(g: Group)
      reads this, players, g
    {
      && (forall n :: n in online ==> online[n] in players && online[n].username == n)
      && (forall n :: n in g.members ==> n in online && g.members[n] == online[n])
    }

    lemma MembersAreOnline(g: Group)
      requires Valid() && Registered(g)
      ensures OnlineMembers(g)
    {
      forall n | n in g.members ensures n in online && g.members[n] == online[n] {
        assert Seated(g.leaderName, n, g.members[n]);
      }
    }

    twostate predicate Untouched(p: Player)
      reads p
    {
      p.groupInfo == old(p.groupInfo) && p.lines == old(p.lines)
    }

    twostate predicate Told(p: Player, line: Line)
      reads p
    {
      p.groupInfo == old(p.groupInfo) && p.lines == old(p.lines) + [line]
    }

    /** The loop over a group's members that skips one name. */
    method SendMembers(g: Group, except: Name, line: Line)
      requires OnlineMembers(g)
      modifies players
      ensures forall n :: n in online && n in g.members && n != except ==> Told(online[n], line)
      ensures forall n :: n in online && (n !in g.members || n == except) ==> Untouched(online[n])
    {
      var todo := g.members.Keys;
      while todo != {}
        invariant todo <= g.members.Keys && OnlineMembers(g)
        invariant forall n :: n in online && n in g.members - todo && n != except ==> Told(online[n], line)
        invariant forall n :: n in online && (n !in g.members - todo || n == except) ==> Untouched(online[n])
      {
        var k :| k in todo;
        if k != except {
          g.members[k].Send(line);
        }
        todo := todo - {k};
      }
    }

    twostate predicate TellingAll(g: Group, except: Name, line: Line)
      reads this, players, groups, g
    {
      && old(Flat()) && Registered(g) && online == old(online) && parties == old(parties)
      && players == old(players) && groups == old(groups)
      && (forall n :: n in online && n in g.members && n != except ==> Told(online[n], line))
      && (forall n :: n in online && (n !in g.members || n == except) ==> Untouched(online[n]))
      && (forall l :: l in parties ==> parties[l].members == old(parties[l].members))
    }

    twostate lemma TellingAllKeeps(g: Group, new except: Name, new line: Line)
      requires old(Valid()) && TellingAll(g, except, line)
      ensures Valid()
    {
      forall n | n in online ensures online[n].groupInfo == old(online[n].groupInfo) {
        assert Told(online[n], line) || Untouched(online[n]);
      }
      forall n | n in online && online[n].groupInfo != null
        ensures Registered(online[n].groupInfo) && online[n].groupInfo in groups && n in online[n].groupInfo.members
      {
        assert old(Registered(online[n].groupInfo));
      }
      forall l, n | l in parties && n in parties[l].members ensures Seated(l, n, parties[l].members[n]) {
        assert old(Seated(l, n, parties[l].members[n]));
      }
    }

    twostate lemma TellingAllTells(g: Group, new except: Name, new line: Line)
      requires TellingAll(g, except, line) && Flat()
      ensures State() == TellAll(old(State()), g.members.Keys - {except}, line)
    {
      var t := TellAll(old(State()), g.members.Keys - {except}, line);
      forall n | n in online ensures State().seats[n] == t.seats[n] {
        assert if n in g.members && n != except then Told(online[n], line) else Untouched(online[n]);
      }
      assert State().seats == t.seats;
      assert State().parties == t.parties;
    }

    method TellMembers(g: Group, except: Name, line: Line)
      requires Valid() && Registered(g)
      modifies players
      ensures Valid() && State() == TellAll(old(State()), g.members.Keys - {except}, line)
    {
      MembersAreOnline(g);
      SendMembers(g, except, line);
      TellingAllKeeps(g, except, line);
      TellingAllTells(g, except, line);
    }

    // ---- Create ----

    /** What founding a group changes, on the pointers. */
    twostate predicate Founding(p: Player, new g: Group)
      reads this, players, groups, p, g
    {
      && old(Flat()) && old(Online(p)) && old(p.groupInfo) == null
      && online == old(online) && players == old(players) && groups == old(groups) + {g} && p.username !in old(parties) && parties == old(parties)[p.username := g]
      && g.leaderName == p.username && g.members == map[p.username := p] && p.groupInfo == g && p.lines == old(p.lines)
      && (forall n :: n in online && online[n] != p ==> Untouched(online[n]))
      && (forall l :: l in old(parties) ==> parties[l].members == old(parties[l].members))
    }

    twostate lemma FoundingKeepsPointers(p: Player, new g: Group)
      requires old(Valid()) && Founding(p, g)
      ensures Flat() && Pointing()
    {
      forall n | n in online && online[n].groupInfo != null
        ensures Registered(online[n].groupInfo) && n in online[n].groupInfo.members
      {
        assert n != p.username ==> old(Registered(online[n].groupInfo));
      }
    }

    twostate lemma FoundingKeepsLists(p: Player, new g: Group)
      requires old(Valid()) && Founding(p, g)
      ensures Listed()
    {
      forall l, n | l in parties && n in parties[l].members ensures Seated(l, n, parties[l].members[n]) {
        assert l != p.username ==> old(Seated(l, n, parties[l].members[n]));
      }
    }

    twostate lemma FoundingSeats(p: Player, new g: Group)
      requires Founding(p, g) && Flat()
      ensures State().seats == Founded(old(State()), p.username).seats
    {
    }

    twostate lemma FoundingParties(p: Player, new g: Group)
      requires Founding(p, g) && Flat()
      ensures State().parties == Founded(old(State()), p.username).parties
    {
      assert g.members.Keys == {p.username};
    }

    twostate lemma FoundingIsFounded(p: Player, new g: Group)
      requires old(Valid()) && Founding(p, g)
      ensures Valid() && State() == Founded(old(State()), p.username)
    {
      FoundingKeepsPointers(p, g);
      FoundingKeepsLists(p, g);
      FoundingSeats(p, g);
      FoundingParties(p, g);
    }

    lemma LeadersAreBusy()
      requires Valid()
      ensures forall l :: l in parties ==> l in online && online[l].groupInfo == parties[l]
    {
      forall l | l in parties ensures l in online && online[l].groupInfo == parties[l] {
        assert Seated(l, l, parties[l].members[l]);
      }
    }

    method GroupCreate(p: Player) returns (ok: bool)
      requires Valid() && Online(p)
      modifies this`parties, this`groups, p`groupInfo
      ensures Valid()
      ensures ok <==> old(p.groupInfo) == null
      ensures !ok ==> State() == old(State())
      ensures ok ==> State() == Founded(old(State()), p.username)
    {
      if p.groupInfo != null {
        return false;
      }
      LeadersAreBusy();
      Found(p);
      return true;
    }

    method Found(p: Player)
      requires Valid() && Online(p) && p.groupInfo == null && p.username !in parties
      modifies this`parties, this`groups, p`groupInfo
      ensures Valid() && State() == Founded(old(State()), p.username)
    {
      var g := new Group(p);
      Enroll(p, g);
    }

    method Enroll(p: Player, g: Group)
      requires Valid() && Online(p) && p.groupInfo == null && p.username !in parties && g !in groups
      requires g.leaderName == p.username && g.members == map[p.username := p]
      modifies this`parties, this`groups, p`groupInfo
      ensures Valid() && State() == Founded(old(State()), p.username)
    {
      p.groupInfo := g;
      parties, groups := parties[p.username := g], groups + {g};
      FoundingIsFounded(p, g);
    }

    method Create(p: Player)
      requires Valid() && Online(p)
      modifies this`parties, this`groups, p
      ensures Valid() && State() == Created(old(State()), p.username)
    {
      var ok := GroupCreate(p);
      if !ok {
        TellOne(p, IN_GROUP);
      } else {
        TellOne(p, CreatedGroup(p.username));
      }
    }

    // ---- Invite ----

    method GroupInvite(g: Group, inviter: Player, p: Player) returns (failed: Option<Line>)
      requires Valid() && Online(inviter) && Online(p) && inviter.groupInfo == g
      modifies p`lines
      ensures Valid()
      ensures failed == (if inviter == p then Some(INVALID_COMMAND) else if inviter.username != g.leaderName then Some(NOT_LEADER)
                         else if old(p.groupInfo) != null then Some(IN_GROUP) else None)
      ensures State() == if failed.None? then Tell(old(State()), p.username, [Invitation(inviter.username)]) else old(State())
    {
      if inviter.username == p.username {
        return Some(INVALID_COMMAND);
      }
      if inviter.username != g.leaderName {
        return Some(NOT_LEADER);
      }
      if p.groupInfo != null {
        return Some(IN_GROUP);
      }
      TellOne(p, Invitation(inviter.username));
      return None;
    }

    method Invite(p: Player, invitee: Name)
      requires Valid() && Online(p)
      modifies players
      ensures Valid() && State() == Invited(old(State()), p.username, invitee)
    {
      if invitee !in online {
        TellOne(p, PLAYER_NOT_FOUND);
        return;
      }
      if p.groupInfo == null {
        TellOne(p, NOT_IN_GROUP);
        return;
      }
      InviteOnline(p, online[invitee]);
    }

    /** The invitation and its answer, once the invitee is known to be online. */
    method InviteOnline(p: Player, q: Player)
      requires Valid() && Online(p) && Online(q) && p.groupInfo != null
      modifies players
      ensures Valid() && State() == Invited(old(State()), p.username, q.username)
    {
      var failed := GroupInvite(p.groupInfo, p, q);
      if failed.Some? {
        TellOne(p, failed.value);
        return;
      }
      TellOne(p, Ok);
    }

    // ---- Join ----

    /** What a player stepping into or out of a group changes, on the pointers. */
    twostate predicate Reseated(p: Player, g: Group, to: Group?)
      reads this, players, groups, p, g
    {
      && old(Flat()) && old(Online(p)) && old(Registered(g)) && online == old(online) && parties == old(parties)
      && players == old(players) && groups == old(groups)
      && p.groupInfo == to && p.lines == old(p.lines)
      && (forall n :: n in online && online[n] != p ==> Untouched(online[n]))
      && (forall l :: l in parties && parties[l] != g ==> parties[l].members == old(parties[l].members))
    }

    twostate predicate Entering(p: Player, g: Group)
      reads this, players, groups, p, g
    {
      Reseated(p, g, g) && old(p.groupInfo) == null && g.members == old(g.members)[p.username := p]
    }

    twostate lemma EnteringKeepsPointers(p: Player, new leader: Name)
      requires old(Valid()) && leader in old(parties) && Entering(p, old(parties)[leader])
      ensures Flat() && Pointing()
    {
      forall n | n in online && online[n].groupInfo != null
        ensures Registered(online[n].groupInfo) && n in online[n].groupInfo.members
      {
        assert n != p.username ==> old(Registered(online[n].groupInfo));
      }
    }

    twostate lemma EnteringKeepsLists(p: Player, new leader: Name)
      requires old(Valid()) && leader in old(parties) && Entering(p, old(parties)[leader])
      ensures Listed()
    {
      forall l, n | l in parties && n in parties[l].members ensures Seated(l, n, parties[l].members[n]) {
        assert n in old(parties[l].members) ==> old(Seated(l, n, parties[l].members[n]));
      }
    }

    twostate lemma EnteringSeats(p: Player, new leader: Name)
      requires leader in old(parties) && Entering(p, old(parties)[leader]) && Flat()
      ensures State().seats == Inside(old(State()), p.username, leader).seats
    {
    }

    twostate lemma EnteringParties(p: Player, new leader: Name)
      requires leader in old(parties) && Entering(p, old(parties)[leader]) && Flat()
      ensures State().parties == Inside(old(State()), p.username, leader).parties
    {
      var g := old(parties)[leader];
      assert g.members.Keys == old(g.members.Keys) + {p.username};
    }

    twostate lemma EnteringIsInside(p: Player, new leader: Name)
      requires old(Valid()) && leader in old(parties) && Entering(p, old(parties)[leader])
      ensures Valid() && State() == Inside(old(State()), p.username, leader)
    {
      EnteringKeepsPointers(p, leader);
      EnteringKeepsLists(p, leader);
      EnteringSeats(p, leader);
      EnteringParties(p, leader);
    }

    method StepIn(p: Player, g: Group)
      requires Valid() && Online(p) && Registered(g) && p.groupInfo == null
      modifies p`groupInfo, g`members
      ensures Valid() && State() == Inside(old(State()), p.username, g.leaderName)
      ensures g.members == old(g.members)[p.username := p]
    {
      p.groupInfo := g;
      g.members := g.members[p.username := p];
      EnteringIsInside(p, g.leaderName);
    }

    method Enter(p: Player, g: Group)
      requires Valid() && Online(p) && Registered(g) && p.groupInfo == null
      modifies players, groups
      ensures Valid()
      ensures State() == TellAll(Inside(old(State()), p.username, g.leaderName),
                                 old(g.members.Keys) - {p.username}, Joining(p.username))
    {
      ghost var others := g.members.Keys - {p.username};
      StepIn(p, g);
      assert others == g.members.Keys - {p.username};
      TellMembers(g, p.username, Joining(p.username));
    }

    method GroupJoin(leader: Name, p: Player) returns (ok: bool)
      requires Valid() && Online(p)
      modifies players, groups
      ensures Valid() && ok == (leader in old(State()).parties && old(State()).seats[p.username].group.None?)
      ensures !ok ==> State() == Joined(old(State()), p.username, leader)
      ensures ok ==> State() == TellAll(Inside(old(State()), p.username, leader),
                                        old(State()).parties[leader] - {p.username}, Joining(p.username))
    {
      if leader !in parties {
        TellOne(p, NOT_LEADER);
        return false;
      }
      if p.groupInfo != null {
        TellOne(p, IN_GROUP);
        return false;
      }
      Enter(p, parties[leader]);
      return true;
    }

    method Join(p: Player, leader: Name)
      requires Valid() && Online(p)
      modifies players, groups
      ensures Valid() && State() == Joined(old(State()), p.username, leader)
    {
      var ok := GroupJoin(leader, p);
      if ok {
        TellOne(p, JoinedGroup(leader));
      }
    }

    // ---- Leave ----

    twostate predicate Departing(p: Player, g: Group)
      reads this, players, groups, p, g
    {
      && Reseated(p, g, null) && old(p.groupInfo) == g && g.leaderName != p.username
      && g.members == old(g.members) - {p.username}
    }

    twostate lemma DepartingKeepsPointers(p: Player, new leader: Name)
      requires old(Valid()) && leader in old(parties) && Departing(p, old(parties)[leader])
      ensures Flat() && Pointing()
    {
      forall n | n in online && online[n].groupInfo != null
        ensures Registered(online[n].groupInfo) && online[n].groupInfo in groups && n in online[n].groupInfo.members
      {
        assert old(Registered(online[n].groupInfo));
      }
    }

    twostate lemma DepartingKeepsLists(p: Player, new leader: Name)
      requires old(Valid()) && leader in old(parties) && Departing(p, old(parties)[leader])
      ensures Listed()
    {
      forall l, n | l in parties && n in parties[l].members ensures Seated(l, n, parties[l].members[n]) {
        assert old(Seated(l, n, parties[l].members[n]));
      }
    }

    twostate lemma DepartingSeats(p: Player, new leader: Name)
      requires leader in old(parties) && Departing(p, old(parties)[leader]) && Flat()
      ensures State().seats == Outside(old(State()), p.username, leader).seats
    {
    }

    twostate lemma DepartingParties(p: Player, new leader: Name)
      requires leader in old(parties) && Departing(p, old(parties)[leader]) && Flat()
      ensures State().parties == Outside(old(State()), p.username, leader).parties
    {
      var g := old(parties)[leader];
      assert g.members.Keys == old(g.members.Keys) - {p.username};
    }

    twostate lemma DepartingIsOutside(p: Player, new leader: Name)
      requires old(Valid()) && leader in old(parties) && Departing(p, old(parties)[leader])
      ensures Valid() && State() == Outside(old(State()), p.username, leader)
    {
      DepartingKeepsPointers(p, leader);
      DepartingKeepsLists(p, leader);
      DepartingSeats(p, leader);
      DepartingParties(p, leader);
    }

    method StepOut(p: Player, g: Group)
      requires Valid() && Online(p) && Registered(g) && p.groupInfo == g && g.leaderName != p.username
      modifies p`groupInfo, g`members
      ensures Valid() && State() == Outside(old(State()), p.username, g.leaderName)
      ensures g.members == old(g.members) - {p.username}
    {
      g.members := g.members - {p.username};
      p.groupInfo := null;
      DepartingIsOutside(p, g.leaderName);
    }

    method Depart(p: Player, g: Group)
      requires Valid() && Online(p) && Registered(g) && p.groupInfo == g && g.leaderName != p.username
      modifies players, groups
      ensures Valid()
      ensures State() == TellAll(Outside(old(State()), p.username, g.leaderName),
                                 old(g.members.Keys) - {p.username}, Leaving(p.username))
    {
      ghost var others := g.members.Keys - {p.username};
      StepOut(p, g);
      assert others == g.members.Keys - {p.username};
      TellMembers(g, p.username, Leaving(p.username));
    }

    method GroupLeave(g: Group, p: Player) returns (failed: bool)
      requires Valid() && Online(p) && Registered(g)
      modifies this`parties, players, groups
      ensures Valid() && failed == (g.leaderName != p.username && old(p.groupInfo) != g)
      ensures failed ==> State() == Tell(old(State()), p.username, [NOT_IN_GROUP])
      ensures !failed ==> p.groupInfo == null && State() == Released(old(State()), p.username)
    {
      if g.leaderName == p.username {
        GroupDisband(g);
        return false;
      }
      if p.groupInfo != g {
        TellOne(p, NOT_IN_GROUP);
        return true;
      }
      Depart(p, g);
      return false;
    }

    method Leave(p: Player)
      requires Valid() && Online(p)
      modifies this`parties, players, groups
      ensures Valid() && State() == Left(old(State()), p.username)
    {
      if p.groupInfo == null {
        TellOne(p, NOT_IN_GROUP);
        return;
      }
      var failed := GroupLeave(p.groupInfo, p);
      if !failed {
        ghost var s := State();
        TellOne(p, Ok);
        TellOne(p, Leaving(p.username));
        TellTwice(s, p.username, Ok, Leaving(p.username));
      }
    }

    lemma TellTwice(s: State, who: Name, a: Line, b: Line)
      ensures Tell(Tell(s, who, [a]), who, [b]) == Tell(s, who, [a, b])
    {
      if who in s.seats {
        assert s.seats[who].lines + [a] + [b] == s.seats[who].lines + [a, b];
      }
    }

    // ---- Disband ----

    twostate predicate Disbanding(g: Group)
      reads this, players, groups, g
    {
      && old(Flat()) && old(Registered(g)) && online == old(online) && players == old(players) && groups == old(groups)
      && parties == old(parties) - {g.leaderName} && g.members == old(g.members)
      && (forall l :: l in parties ==> parties[l].members == old(parties[l].members))
      && (forall n :: n in online && n in g.members ==> Dismissed(g, n, online[n]))
      && (forall n :: n in online && n !in g.members ==> Untouched(online[n]))
    }

    twostate predicate Dismissed(g: Group, n: Name, p: Player)
      reads p
    {
      p.groupInfo == null && p.lines == old(p.lines) + Farewell(g.leaderName, n)
    }

    twostate lemma DisbandingKeeps(g: Group)
      requires old(Valid()) && Disbanding(g)
      ensures Valid()
    {
      forall n | n in online && online[n].groupInfo != null
        ensures Registered(online[n].groupInfo) && online[n].groupInfo in groups && n in online[n].groupInfo.members
      {
        assert old(Registered(online[n].groupInfo));
      }
      assert forall n :: n in g.members ==> old(Seated(g.leaderName, n, g.members[n]));
      forall l, n | l in parties && n in parties[l].members ensures Seated(l, n, parties[l].members[n]) {
        assert old(Seated(l, n, parties[l].members[n]));
      }
    }

    twostate lemma DisbandingSeats(g: Group)
      requires Disbanding(g) && Flat()
      ensures State().seats == Disbanded(old(State()), g.leaderName).seats
    {
    }

    twostate lemma DisbandingParties(g: Group)
      requires Disbanding(g) && Flat()
      ensures State().parties == Disbanded(old(State()), g.leaderName).parties
    {
    }

    twostate lemma DisbandingIsDisbanded(g: Group)
      requires old(Valid()) && Disbanding(g)
      ensures Valid() && State() == Disbanded(old(State()), g.leaderName)
    {
      DisbandingKeeps(g);
      DisbandingSeats(g);
      DisbandingParties(g);
    }

    method GroupDisband(g: Group)
      requires Valid() && Registered(g)
      modifies this`parties, players
      ensures Valid() && State() == Disbanded(old(State()), g.leaderName)
    {
      MembersAreOnline(g);
      StrikeAndDismiss(g);
      DisbandingIsDisbanded(g);
    }

    /** Out of the registry, and then one member after the other. */
    method StrikeAndDismiss(g: Group)
      requires OnlineMembers(g)
      modifies this`parties, players
      ensures parties == old(parties) - {g.leaderName}
      ensures forall n :: n in online && n in g.members ==> Dismissed(g, n, online[n])
      ensures forall n :: n in online && n !in g.members ==> Untouched(online[n])
    {
      parties := parties - {g.leaderName};
      var todo := g.members.Keys;
      while todo != {}
        invariant todo <= g.members.Keys && OnlineMembers(g) && parties == old(parties) - {g.leaderName}
        invariant forall n :: n in online && n in g.members - todo ==> Dismissed(g, n, online[n])
        invariant forall n :: n in online && n !in g.members - todo ==> Untouched(online[n])
      {
        var k :| k in todo;
        Dismiss(g, k, g.members[k]);
        todo := todo - {k};
      }
    }

    method Dismiss(g: Group, n: Name, p: Player)
      modifies p
      ensures Dismissed(g, n, p)
    {
      p.groupInfo := null;
      if g.leaderName != n {
        p.Send(Leaving(g.leaderName));
        p.Send(Leaving(n));
      }
    }

    // ---- Chat, connecting and disconnecting ----

    method Chat(p: Player, message: string)
      requires Valid() && Online(p)
      modifies players
      ensures Valid() && State() == Chatted(old(State()), p.username, message)
    {
      if p.groupInfo == null {
        TellOne(p, NOT_IN_GROUP);
        return;
      }
      TellMembers(p.groupInfo, p.username, Message(p.username, message));
      TellOne(p, Ok);
    }

    /** The rest of the world when a player comes or goes. */
    twostate predicate Around()
      reads this, players, groups
    {
      && old(Flat()) && parties == old(parties) && groups == old(groups) && old(players) <= players
      && (forall p :: p in old(players) ==> p.groupInfo == old(p.groupInfo) && p.lines == old(p.lines))
      && (forall l :: l in parties ==> parties[l].members == old(parties[l].members))
    }

    twostate lemma AroundKeeps(n: Name, new p: Player)
      requires old(Valid()) && Around() && p in players && p.groupInfo == null && p.username == n
      requires (online == old(online)[n := p] && n !in old(online)) || (online == old(online) - {n} && n in old(online) && old(online)[n] == p)
      ensures Valid() && State().parties == old(State()).parties
    {
      forall k | k in online && online[k].groupInfo != null
        ensures Registered(online[k].groupInfo) && online[k].groupInfo in groups && k in online[k].groupInfo.members
      {
        assert old(Registered(online[k].groupInfo));
      }
      forall l, k | l in parties && k in parties[l].members ensures Seated(l, k, parties[l].members[k]) {
        assert old(Seated(l, k, parties[l].members[k]));
      }
    }

    method Connect(name: Name) returns (ok: bool)
      requires Valid() && IsWord(name)
      modifies this`online, this`players
      ensures Valid() && ok == (name !in old(online))
      ensures State() == if ok then Next(old(State()), Login(name)) else old(State())
    {
      if name in online {
        return false;
      }
      Admit(name);
      return true;
    }

    /** CONNECT: the name check, and a fresh player unless the name is online. */
    method ProcessConn(r: Runes, args: string) returns (v: NameVerdict, ok: bool)
      requires Valid() && r.Ok()
      modifies this`online, this`players
      ensures Valid() && v == CheckName(r, args) && (ok <==> v.Accepted? && v.name !in old(online))
      ensures State() == if ok then Next(old(State()), Login(v.name)) else old(State())
    {
      v := CheckName(r, args);
      ok := false;
      if v.Accepted? {
        AcceptedIsWord(r, args);
        ok := Connect(v.name);
      }
    }

    method Admit(name: Name)
      requires Valid() && name !in online
      modifies this`online, this`players
      ensures Valid() && State() == old(State()).(seats := old(State()).seats[name := Parties.Seat(None, [])])
    {
      var p := new Player(name);
      TakeSeat(p);
    }

    method TakeSeat(p: Player)
      requires Valid() && p.username !in online && p !in players && p.groupInfo == null && p.lines == []
      modifies this`online, this`players
      ensures Valid() && State() == old(State()).(seats := old(State()).seats[p.username := Parties.Seat(None, [])])
    {
      ghost var s := State();
      online, players := online[p.username := p], players + {p};
      AroundKeeps(p.username, p);
      assert State().seats == s.seats[p.username := Parties.Seat(None, [])];
    }

    /** The group part of cleaning up after a connection, and dropping the player. */
    method Cleanup(p: Player)
      requires Valid() && Online(p)
      modifies this`parties, this`online, players, groups
      ensures Valid() && State() == Gone(old(State()), p.username)
    {
      LeaveQuietly(p);
      Forget(p);
    }

    method LeaveQuietly(p: Player)
      requires Valid() && Online(p)
      modifies this`parties, players, groups
      ensures Valid() && State() == Released(old(State()), p.username) && p.groupInfo == null
    {
      if p.groupInfo != null {
        var _ := GroupLeave(p.groupInfo, p);
      }
    }

    method Forget(p: Player)
      requires Valid() && Online(p) && p.groupInfo == null
      modifies this`online
      ensures Valid() && State() == old(State()).(seats := old(State()).seats - {p.username})
    {
      ghost var s := State();
      online := online - {p.username};
      AroundKeeps(p.username, p);
      assert State().seats == s.seats - {p.username};
    }
  }
}
