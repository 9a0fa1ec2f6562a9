/** The lines the server prints and the client's parser that must read them back. */
module Wire {
  import opened Wrappers
  import opened GoStrings

  // ---- The names the server lets in ----

  /** The tables of runes the name check consults. */
  datatype Runes = Runes(isPrint: char -> bool, fold: char -> char, lower: char -> char) {
    /** The only white space that is printable is the plain space. */
    ghost predicate Ok() {
      forall c :: isPrint(c) && IsSpace(c) ==> c == ' '
    }
  }

  function EqualFold(r: Runes, s: string, t: string): bool {
    |s| == |t| && forall i :: 0 <= i < |s| ==> r.fold(s[i]) == r.fold(t[i])
  }

  function ToLower(r: Runes, s: string): string {
    seq(|s|, i requires 0 <= i < |s| => r.lower(s[i]))
  }

  const FORBIDDEN_PREFIXES := ["<", "{", "[", "(", "npc.", "item.", "zone.", "key_item."]
  const FORBIDDEN_NAMES := ["OK", "ERR", "EVT", "ADMIN", "SERVER", "SYSTEM", "STAFF"]

  datatype NameVerdict = Accepted(name: string) | InvalidChar | TooLong | TooShort

  function CheckName(r: Runes, args: string): NameVerdict {
    var username := TrimSpace(args);
    if exists i :: 0 <= i < |FORBIDDEN_NAMES| && EqualFold(r, username, FORBIDDEN_NAMES[i]) then InvalidChar
    else if exists i :: 0 <= i < |FORBIDDEN_PREFIXES| && HasPrefix(ToLower(r, username), FORBIDDEN_PREFIXES[i]) then InvalidChar
    else if exists i :: 0 <= i < |username| && !r.isPrint(username[i]) then InvalidChar
    else if exists i :: 0 <= i < |username| && username[i] == ' ' then InvalidChar
    else if |username| > 10 then TooLong
    else if |username| < 2 then TooShort
    else Accepted(username)
  }

  /** What the other side may rely on: an accepted name is one word. */
  lemma AcceptedIsWord(r: Runes, args: string)
    requires r.Ok() && CheckName(r, args).Accepted?
    ensures var name := CheckName(r, args).name; IsWord(name) && 2 <= |name| <= 10
    ensures var name := CheckName(r, args).name; name != "OK" && name != "ERR" && name != "EVT"
  {
    var name := CheckName(r, args).name;
    assert forall i :: 0 <= i < |name| ==> r.isPrint(name[i]) && name[i] != ' ';
    assert EqualFold(r, "OK", FORBIDDEN_NAMES[0]);
    assert EqualFold(r, "ERR", FORBIDDEN_NAMES[1]);
    assert EqualFold(r, "EVT", FORBIDDEN_NAMES[2]);
  }

  // ---- The printers ----

  function EvtZoneEnter(username: string): string { "EVT ROOM PRESENCE ENTER " + username }
  function EvtZoneLeave(username: string): string { "EVT ROOM PRESENCE LEAVE " + username }
  function EvtZoneChat(username: string, message: string): string { "EVT ROOM CHAT " + username + " " + message }
  function EvtGlobalChat(username: string, message: string): string { "EVT GLOBAL CHAT " + username + " " + message }
  function EvtPartyInvite(leader: string): string { "EVT GROUP INVITE " + leader }
  function EvtPartyJoin(username: string): string { "EVT GROUP JOIN " + username }
  function EvtPartyLeave(username: string): string { "EVT GROUP LEAVE " + username }
  function EvtPartyChat(username: string, message: string): string { "EVT GROUP CHAT " + username + " " + message }
  function EvtPlayerCount(count: nat): string { "EVT STATS players=" + Itoa(count) }
  function EvtPlayerRespawn(): string { "EVT RESPAWN room=" + "zone.chapel" }

  function GroupCreated(leader: string): string { "OK group=NEW" + ("PT-" + leader) }
  function GroupJoined(leader: string): string { "OK group=PT-" + leader }
  function ErrorLine(code: nat, message: string): string { "ERR " + Itoa(code) + " " + message }
  function ItemTaken(item: string): string { "OK taken=" + item }
  function ItemDropped(item: string): string { "OK dropped=" + item }
  function RoomMoved(zone: string): string { "OK room=" + zone }
  function GoldBalance(gold: nat): string { "OK " + Itoa(gold) + " GOLD" }
  function GoldReward(name: string, gold: nat): string { name + " receives " + Itoa(gold) + " gold." }
  function KeyItemReward(name: string, item: string): string { name + " receives " + item + "." }

  // ---- The parser ----

  /** A parsed line. Json stands for the branches that hand their text to the JSON library,
      Malformed for those that return an error. */
  datatype Reply =
    | Ignore
    | EmptyList
    | RoomMove(room: string)
    | Json(text: string)
    | BattleEnd
    | Gold(amount: int)
    | Respawned(room: string)
    | TakeDrop(action: string, item: string)
    | Presence(direction: string, who: string)
    | ServerCount(count: int)
    | Chat(scope: string, sender: string, message: string)
    | Group(action: string, byWho: string)
    | RewardGold(receiver: string, gold: int)
    | RewardItem(receiver: string, item: string)
    | Dialogue(text: string)
    | Error(code: int, text: string)
    | Other(text: string)
    | Malformed

  function IsGoldReward(line: string): Option<(string, int)> {
    var parts := Fields(line);
    if |parts| != 4 || parts[1] != "receives" || parts[3] != "gold." then None
    else
      var amount := Atoi(parts[2]);
      if amount.None? then None else Some((parts[0], amount.value))
  }

  function IsKeyItemReward(line: string): Option<(string, string)> {
    var parts := Fields(TrimSuffix(line, "."));
    if |parts| < 3 || parts[1] != "receives" || !HasSuffix(line, ".") then None
    else Some((parts[0], Join(parts[2..])))
  }

  function ParseServerReply(reply: string): Reply {
    var toParse := TrimSpace(reply);
    var gold := IsGoldReward(toParse);
    if gold.Some? then RewardGold(gold.value.0, gold.value.1)
    else
      var item := IsKeyItemReward(toParse);
      if item.Some? then RewardItem(item.value.0, item.value.1) else ParseCases(toParse)
  }

  predicate JsonObject(s: string, key: string) {
    HasPrefix(s, "OK {\"" + key) || HasPrefix(s, "OK { \"" + key)
  }

  function TakeDropOf(s: string): Reply {
    var parts := SplitN(TrimSpace(TrimPrefix(s, "OK ")), '=', 2);
    if |parts| != 2 then Malformed else TakeDrop(parts[0], parts[1])
  }

  function PresenceOf(s: string): Reply {
    var parts := Fields(s);
    if |parts| != 5 then Malformed else Presence(parts[3], parts[4])
  }

  function CountOf(s: string): Reply {
    var parts := SplitN(TrimSpace(TrimPrefix(s, "OK ")), '=', 2);
    if |parts| != 2 then Malformed
    else
      var n := Atoi(parts[1]);
      if n.None? then Malformed else ServerCount(n.value)
  }

  function ChatOf(s: string): Reply {
    var parts := SplitN(s, ' ', 5);
    if |parts| < 4 then Malformed else Chat(parts[1], parts[3], if |parts| > 4 then parts[4] else "")
  }

  function GroupOf(s: string): Reply {
    var parts := SplitN(s, ' ', 4);
    if |parts| < 4 then Malformed else Group(parts[2], parts[3])
  }

  function ErrorOf(s: string): Reply {
    var parts := SplitN(s, ' ', 3);
    if |parts| < 3 then Malformed
    else
      var n := Atoi(parts[1]);
      if n.None? then Malformed else Error(n.value, parts[2])
  }

  /** The cascade of prefix tests, in its order; cut in three only to keep each piece short. */
  function ParseCases(s: string): Reply {
    if s == "OK" then Ignore
    else if s != "OK [" && TrimSpace(TrimSuffix(s, "]")) == "OK [" then EmptyList
    else if HasPrefix(s, "OK room=") then RoomMove(TrimPrefix(s, "OK room="))
    else if JsonObject(s, "room\"") || JsonObject(s, "hp\"") || JsonObject(s, "name\"") || JsonObject(s, "attack") then
      Json(TrimSpace(TrimPrefix(s, "OK ")))
    else if s == "OK battle ended" then BattleEnd
    else if HasPrefix(s, "OK ") && |Fields(s)| == 3 && HasSuffix(s, "GOLD") then
      var n := Atoi(Fields(s)[1]);
      if n.None? then Ignore else Gold(n.value)
    else ParseEvents(s)
  }

  function ParseEvents(s: string): Reply {
    if HasPrefix(s, "EVT RESPAWN room=") then Respawned(TrimPrefix(s, "EVT RESPAWN room="))
    else if HasPrefix(s, "OK taken=") || HasPrefix(s, "OK dropped=") then TakeDropOf(s)
    else if HasPrefix(s, "EVT ROOM PRESENCE ENTER") || HasPrefix(s, "EVT ROOM PRESENCE LEAVE") then PresenceOf(s)
    else if HasPrefix(s, "EVT STATS players=") then CountOf(s)
    else if HasPrefix(s, "EVT GROUP CHAT") || HasPrefix(s, "EVT ROOM CHAT") || HasPrefix(s, "EVT GLOBAL CHAT") then ChatOf(s)
    else if HasPrefix(s, "OK group=NEWPT-") then Group("CREATE", TrimPrefix(s, "OK group=NEWPT-"))
    else if HasPrefix(s, "OK group=PT-") then Group("JOIN", TrimPrefix(s, "OK group=PT-"))
    else if HasPrefix(s, "EVT GROUP ") then GroupOf(s)
    else ParseLast(s)
  }

  function ParseLast(s: string): Reply {
    var rest := TrimSpace(TrimPrefix(s, "OK "));
    if JsonObject(s, "quest_id\"") then Json(rest)
    else if HasPrefix(s, "OK [{") || HasPrefix(s, "OK [ {") then Json(rest)
    else if HasPrefix(s, "OK [\"item.") || HasPrefix(s, "OK [ \"item.") then Json(rest)
    else if HasPrefix(s, "OK [\"key_item.") || HasPrefix(s, "OK [ \"key_item.") then Json(rest)
    else if HasPrefix(s, "OK ") then Dialogue(rest)
    else if HasPrefix(s, "ERR ") then ErrorOf(s)
    else Other(s)
  }

  // ---- Events ----

  lemma SecondWord(a: string, b: string, rest: string)
    requires IsWord(a) && IsWord(b)
    ensures Fields(a + " " + b + " " + rest) == [a, b] + Fields(rest)
  {
    var tail := b + " " + rest;
    Regroup(a + " ", b, rest);
    FieldsStep(a, tail);
    FieldsStep(b, rest);
    TwoFirst(a, b, Fields(rest));
  }

  lemma DropDot(head: string, rest: string)
    requires HasSuffix(head + " " + rest, ".")
    ensures rest != "" && TrimSuffix(head + " " + rest, ".") == head + " " + rest[..|rest| - 1]
  {
    var s := head + " " + rest;
    assert s[|s| - 1] == s[|s| - 1..][0] == '.';
    assert s[|head|] == ' ';
    assert s[..|s| - 1] == head + " " + rest[..|rest| - 1];
  }

  /** A line whose second word is not "receives" is no reward. */
  lemma NoReward(a: string, b: string, rest: string)
    requires IsWord(a) && IsWord(b) && b != "receives"
    ensures IsGoldReward(a + " " + b + " " + rest).None? && IsKeyItemReward(a + " " + b + " " + rest).None?
  {
    var s := a + " " + b + " " + rest;
    SecondWord(a, b, rest);
    assert s == (a + " " + b) + " " + rest;
    if HasSuffix(s, ".") {
      DropDot(a + " " + b, rest);
      SecondWord(a, b, rest[..|rest| - 1]);
    }
  }

  /** Reading a line that starts with a plain letter, ends in a word and is no reward. */
  lemma ReadsAs(s: string, a: string, b: string, rest: string)
    requires s == a + " " + b + " " + rest && IsWord(a) && IsWord(b) && b != "receives"
    requires !IsSpace(s[|s| - 1])
    ensures ParseServerReply(s) == ParseCases(s)
  {
    NoReward(a, b, rest);
    assert s[0] == a[0];
    TrimSpaceKeeps(s);
  }

  // The event branches alone, and why an event line reaches no other.

  function EventCases(s: string): Reply {
    if HasPrefix(s, "EVT RESPAWN room=") then Respawned(TrimPrefix(s, "EVT RESPAWN room="))
    else if HasPrefix(s, "EVT ROOM PRESENCE ENTER") || HasPrefix(s, "EVT ROOM PRESENCE LEAVE") then PresenceOf(s)
    else if HasPrefix(s, "EVT STATS players=") then CountOf(s)
    else if HasPrefix(s, "EVT GROUP CHAT") || HasPrefix(s, "EVT ROOM CHAT") || HasPrefix(s, "EVT GLOBAL CHAT") then ChatOf(s)
    else if HasPrefix(s, "EVT GROUP ") then GroupOf(s)
    else Other(s)
  }

  lemma Differs(s: string, p: string, i: nat)
    requires i < |p| && (i < |s| ==> s[i] != p[i])
    ensures !HasPrefix(s, p)
  {
    assert |p| <= |s| ==> s[..|p|][i] == s[i];
  }

  lemma PrefixAt(s: string, p: string, i: nat)
    requires HasPrefix(s, p) && i < |p|
    ensures s[i] == p[i]
  {
    assert s[..|p|][i] == s[i];
  }

  lemma TrimKeepsFirst(s: string)
    requires s != "" && !IsSpace(s[0])
    ensures TrimSpace(s) != "" && TrimSpace(s)[0] == s[0]
  {
    TrimRightKeeps([s[0]], s[1..]);
    assert [s[0]] + s[1..] == s;
  }

  lemma NotOK(s: string, p: string)
    requires |s| > 0 && s[0] != 'O' && |p| > 0 && p[0] == 'O'
    ensures !HasPrefix(s, p)
  {
    Differs(s, p, 0);
  }

  lemma NoJson(s: string, key: string)
    requires |s| > 0 && s[0] != 'O'
    ensures !JsonObject(s, key)
  {
    NotOK(s, "OK {\"" + key);
    NotOK(s, "OK { \"" + key);
  }

  lemma NotEmptyList(s: string)
    requires |s| > 1 && s[0] != 'O' && !IsSpace(s[0])
    ensures s != "OK" && TrimSpace(TrimSuffix(s, "]")) != "OK [" && s != "OK battle ended"
  {
    var t := TrimSuffix(s, "]");
    assert t[0] == s[0];
    TrimKeepsFirst(t);
  }

  lemma NoOKLists(s: string)
    requires |s| > 0 && s[0] != 'O'
    ensures !HasPrefix(s, "OK [{") && !HasPrefix(s, "OK [ {")
    ensures !HasPrefix(s, "OK [\"item.") && !HasPrefix(s, "OK [ \"item.")
    ensures !HasPrefix(s, "OK [\"key_item.") && !HasPrefix(s, "OK [ \"key_item.")
  {
    NotOK(s, "OK [{");
    NotOK(s, "OK [ {");
    NotOK(s, "OK [\"item.");
    NotOK(s, "OK [ \"item.");
    NotOK(s, "OK [\"key_item.");
    NotOK(s, "OK [ \"key_item.");
  }

  lemma EventsSkipTheFirst(s: string)
    requires |s| > 1 && s[0] != 'O' && !IsSpace(s[0])
    ensures ParseCases(s) == ParseEvents(s)
  {
    NotEmptyList(s);
    NotOK(s, "OK ");
    NotOK(s, "OK room=");
    NoJson(s, "room\"");
    NoJson(s, "hp\"");
    NoJson(s, "name\"");
    NoJson(s, "attack");
  }

  lemma EventsSkipTheLast(s: string)
    requires |s| > 1 && s[0] == 'E' && s[1] == 'V'
    ensures ParseLast(s) == Other(s)
  {
    NotOK(s, "OK ");
    NoOKLists(s);
    NoJson(s, "quest_id\"");
    Differs(s, "ERR ", 1);
  }

  lemma EventsSkipTheRest(s: string)
    requires |s| > 1 && s[0] == 'E' && s[1] == 'V'
    ensures ParseCases(s) == EventCases(s)
  {
    EventsSkipTheFirst(s);
    EventsSkipTheLast(s);
    NotOK(s, "OK taken=");
    NotOK(s, "OK dropped=");
    NotOK(s, "OK group=NEWPT-");
    NotOK(s, "OK group=PT-");
  }

  // Which branch each kind of event takes.

  lemma PresenceBranch(s: string)
    requires HasPrefix(s, "EVT ROOM PRESENCE ENTER") || HasPrefix(s, "EVT ROOM PRESENCE LEAVE")
    ensures EventCases(s) == PresenceOf(s) && s[0] == 'E' && s[1] == 'V'
  {
    var p := if HasPrefix(s, "EVT ROOM PRESENCE ENTER") then "EVT ROOM PRESENCE ENTER" else "EVT ROOM PRESENCE LEAVE";
    PrefixAt(s, p, 0);
    PrefixAt(s, p, 1);
    PrefixAt(s, p, 5);
    Differs(s, "EVT RESPAWN room=", 5);
  }

  lemma CountBranch(s: string)
    requires HasPrefix(s, "EVT STATS players=")
    ensures EventCases(s) == CountOf(s) && s[0] == 'E' && s[1] == 'V'
  {
    PrefixAt(s, "EVT STATS players=", 0);
    PrefixAt(s, "EVT STATS players=", 1);
    PrefixAt(s, "EVT STATS players=", 4);
    Differs(s, "EVT RESPAWN room=", 4);
    Differs(s, "EVT ROOM PRESENCE ENTER", 4);
    Differs(s, "EVT ROOM PRESENCE LEAVE", 4);
  }

  lemma ChatBranch(s: string)
    requires HasPrefix(s, "EVT GROUP CHAT") || HasPrefix(s, "EVT ROOM CHAT") || HasPrefix(s, "EVT GLOBAL CHAT")
    ensures EventCases(s) == ChatOf(s) && s[0] == 'E' && s[1] == 'V'
  {
    if HasPrefix(s, "EVT ROOM CHAT") {
      PrefixAt(s, "EVT ROOM CHAT", 0);
      PrefixAt(s, "EVT ROOM CHAT", 1);
      PrefixAt(s, "EVT ROOM CHAT", 4);
      PrefixAt(s, "EVT ROOM CHAT", 5);
      PrefixAt(s, "EVT ROOM CHAT", 9);
      Differs(s, "EVT RESPAWN room=", 5);
      Differs(s, "EVT ROOM PRESENCE ENTER", 9);
      Differs(s, "EVT ROOM PRESENCE LEAVE", 9);
    } else {
      var p := if HasPrefix(s, "EVT GROUP CHAT") then "EVT GROUP CHAT" else "EVT GLOBAL CHAT";
      PrefixAt(s, p, 0);
      PrefixAt(s, p, 1);
      PrefixAt(s, p, 4);
      Differs(s, "EVT RESPAWN room=", 4);
      Differs(s, "EVT ROOM PRESENCE ENTER", 4);
      Differs(s, "EVT ROOM PRESENCE LEAVE", 4);
    }
    Differs(s, "EVT STATS players=", 4);
  }

  lemma GroupBranch(s: string)
    requires HasPrefix(s, "EVT GROUP ") && |s| > 10 && s[10] != 'C'
    ensures EventCases(s) == GroupOf(s) && s[0] == 'E' && s[1] == 'V'
  {
    PrefixAt(s, "EVT GROUP ", 0);
    PrefixAt(s, "EVT GROUP ", 1);
    PrefixAt(s, "EVT GROUP ", 4);
    PrefixAt(s, "EVT GROUP ", 5);
    Differs(s, "EVT RESPAWN room=", 4);
    Differs(s, "EVT ROOM PRESENCE ENTER", 4);
    Differs(s, "EVT ROOM PRESENCE LEAVE", 4);
    Differs(s, "EVT STATS players=", 4);
    Differs(s, "EVT GROUP CHAT", 10);
    Differs(s, "EVT ROOM CHAT", 4);
    Differs(s, "EVT GLOBAL CHAT", 5);
  }

  // ---- Round trips ----

  lemma Prefixed(p: string, t: string)
    ensures HasPrefix(p + t, p) && TrimPrefix(p + t, p) == t
  {
  }

  lemma LastOf(p: string, name: string)
    requires IsWord(name)
    ensures var s := p + name; s != "" && !IsSpace(s[|s| - 1])
  {
  }

  /** An event that ends in a word, once its words are known. */
  lemma EventParses(s: string, kind: string, rest: string)
    requires s == "EVT" + " " + kind + " " + rest && IsWord(kind) && kind != "receives" && rest != "" && !IsSpace(rest[|rest| - 1])
    ensures ParseServerReply(s) == EventCases(s)
  {
    EventEnds(s, kind, rest);
    ReadsAs(s, "EVT", kind, rest);
    EventsSkipTheRest(s);
  }

  lemma EventEnds(s: string, kind: string, rest: string)
    requires s == "EVT" + " " + kind + " " + rest && rest != "" && !IsSpace(rest[|rest| - 1])
    ensures |s| > 1 && s[0] == 'E' && s[1] == 'V' && !IsSpace(s[|s| - 1])
  {
    assert s[0] == "EVT"[0] && s[1] == "EVT"[1];
    assert s[|s| - 1] == rest[|rest| - 1];
  }

  /** Presence events come back with their direction and player. */
  lemma PresenceRoundTrip(name: string)
    requires IsWord(name)
    ensures ParseServerReply(EvtZoneEnter(name)) == Presence("ENTER", name)
    ensures ParseServerReply(EvtZoneLeave(name)) == Presence("LEAVE", name)
  {
    var enter, leave := EvtZoneEnter(name), EvtZoneLeave(name);
    EnterWords(name);
    PresenceLine(enter, "ENTER", name);
    LeaveWords(name);
    PresenceLine(leave, "LEAVE", name);
  }

  ghost predicate PresenceWords(s: string, direction: string, name: string) {
    && IsWord(direction) && s == "EVT" + " " + "ROOM" + " " + ("PRESENCE" + " " + direction + " " + name)
    && (HasPrefix(s, "EVT ROOM PRESENCE ENTER") || HasPrefix(s, "EVT ROOM PRESENCE LEAVE"))
  }

  lemma EnterWords(name: string)
    ensures PresenceWords("EVT ROOM PRESENCE ENTER " + name, "ENTER", name)
  {
    assert "EVT ROOM PRESENCE ENTER " + name == "EVT ROOM PRESENCE ENTER" + (" " + name);
  }

  lemma LeaveWords(name: string)
    ensures PresenceWords("EVT ROOM PRESENCE LEAVE " + name, "LEAVE", name)
  {
    assert "EVT ROOM PRESENCE LEAVE " + name == "EVT ROOM PRESENCE LEAVE" + (" " + name);
  }

  lemma PresenceLine(s: string, direction: string, name: string)
    requires IsWord(name) && PresenceWords(s, direction, name)
    ensures ParseServerReply(s) == Presence(direction, name)
  {
    PresenceFields(direction, name);
    PresenceBranch(s);
    LastOf("PRESENCE" + " " + direction + " ", name);
    EventParses(s, "ROOM", "PRESENCE" + " " + direction + " " + name);
  }

  lemma PresenceFields(direction: string, name: string)
    requires IsWord(name) && IsWord(direction)
    ensures PresenceOf("EVT" + " " + "ROOM" + " " + ("PRESENCE" + " " + direction + " " + name)) == Presence(direction, name)
  {
    SecondWord("EVT", "ROOM", "PRESENCE" + " " + direction + " " + name);
    SecondWord("PRESENCE", direction, name);
    FieldsWord(name);
  }

  /** Group events come back with their action and player. */
  lemma GroupRoundTrip(name: string)
    requires IsWord(name)
    ensures ParseServerReply(EvtPartyInvite(name)) == Group("INVITE", name)
    ensures ParseServerReply(EvtPartyJoin(name)) == Group("JOIN", name)
    ensures ParseServerReply(EvtPartyLeave(name)) == Group("LEAVE", name)
  {
    var invite, join, leave := EvtPartyInvite(name), EvtPartyJoin(name), EvtPartyLeave(name);
    GroupHeads(name);
    GroupLine(invite, "INVITE", name);
    GroupLine(join, "JOIN", name);
    GroupLine(leave, "LEAVE", name);
  }

  ghost predicate GroupWords(s: string, action: string, name: string) {
    && IsWord(action) && action[0] != 'C' && HasPrefix(s, "EVT GROUP ") && |s| > 10 && s[10] == action[0]
    && s == "EVT" + " " + "GROUP" + " " + (action + " " + name)
  }

  lemma GroupHeads(name: string)
    ensures GroupWords("EVT GROUP INVITE " + name, "INVITE", name)
    ensures GroupWords("EVT GROUP JOIN " + name, "JOIN", name)
    ensures GroupWords("EVT GROUP LEAVE " + name, "LEAVE", name)
  {
    GroupHead("EVT GROUP INVITE ", "INVITE", name);
    GroupHead("EVT GROUP JOIN ", "JOIN", name);
    GroupHead("EVT GROUP LEAVE ", "LEAVE", name);
  }

  lemma GroupHead(head: string, action: string, name: string)
    requires IsWord(action) && action[0] != 'C' && head == "EVT GROUP " + action + " "
    ensures GroupWords(head + name, action, name)
  {
    assert head + name == "EVT GROUP " + (action + " " + name);
    assert "EVT GROUP " == "EVT" + " " + "GROUP" + " ";
    Prefixed("EVT GROUP ", action + " " + name);
  }

  lemma GroupLine(s: string, action: string, name: string)
    requires IsWord(name) && GroupWords(s, action, name)
    ensures ParseServerReply(s) == Group(action, name)
  {
    GroupFields(action, name);
    GroupBranch(s);
    LastOf(action + " ", name);
    EventParses(s, "GROUP", action + " " + name);
  }

  lemma GroupFields(action: string, name: string)
    requires IsWord(action)
    ensures GroupOf("EVT" + " " + "GROUP" + " " + (action + " " + name)) == Group(action, name)
  {
    SplitIn4("EVT", "GROUP", action, name);
  }

  /** Chat events come back with scope, sender and message; white space at the end of the
      message is lost. */
  lemma ChatRoundTrip(name: string, message: string)
    requires IsWord(name)
    ensures ParseServerReply(EvtZoneChat(name, message)) == Chat("ROOM", name, TrimRight(message))
    ensures ParseServerReply(EvtGlobalChat(name, message)) == Chat("GLOBAL", name, TrimRight(message))
    ensures ParseServerReply(EvtPartyChat(name, message)) == Chat("GROUP", name, TrimRight(message))
  {
    ChatHeads();
    ChatLine("EVT ROOM CHAT ", "ROOM", name, message);
    ChatLine("EVT GLOBAL CHAT ", "GLOBAL", name, message);
    ChatLine("EVT GROUP CHAT ", "GROUP", name, message);
  }

  ghost predicate ChatHead(head: string, scope: string) {
    && IsWord(scope) && scope != "receives"
    && head == "EVT" + " " + scope + " " + ("CHAT" + " ")
    && forall t :: HasPrefix(t, head) ==> HasPrefix(t, "EVT GROUP CHAT") || HasPrefix(t, "EVT ROOM CHAT") || HasPrefix(t, "EVT GLOBAL CHAT")
  }

  lemma ChatHeads()
    ensures ChatHead("EVT ROOM CHAT ", "ROOM") && ChatHead("EVT GLOBAL CHAT ", "GLOBAL") && ChatHead("EVT GROUP CHAT ", "GROUP")
  {
    ShorterPrefix("EVT ROOM CHAT ", "EVT ROOM CHAT");
    ShorterPrefix("EVT GLOBAL CHAT ", "EVT GLOBAL CHAT");
    ShorterPrefix("EVT GROUP CHAT ", "EVT GROUP CHAT");
  }

  lemma ShorterPrefix(p: string, q: string)
    requires HasPrefix(p, q)
    ensures forall t :: HasPrefix(t, p) ==> HasPrefix(t, q)
  {
    forall t | HasPrefix(t, p) ensures HasPrefix(t, q) {
      assert t[..|q|] == t[..|p|][..|q|];
    }
  }

  lemma ChatLine(head: string, scope: string, name: string, message: string)
    requires IsWord(name) && ChatHead(head, scope)
    ensures ParseServerReply(head + name + " " + message) == Chat(scope, name, TrimRight(message))
  {
    var text := TrimRight(message);
    var tail := if text == "" then "" else " " + text;
    var s := head + name + tail;
    ChatTrimmed(head, scope, name, message, tail);
    TrimmedParses(head + name + " " + message, s);
    ChatShape(head, scope, name, tail);
    TrimEnd(message);
    ChatBody(s, scope, name, tail, text);
  }

  lemma ChatTrimmed(head: string, scope: string, name: string, message: string, tail: string)
    requires IsWord(name) && ChatHead(head, scope)
    requires tail == if TrimRight(message) == "" then "" else " " + TrimRight(message)
    ensures var s := head + name + tail;
      TrimSpace(head + name + " " + message) == s && s != "" && !IsSpace(s[0]) && !IsSpace(s[|s| - 1])
  {
    var s := head + name + tail;
    TrimEnd(message);
    ChatStarts(head, scope);
    ChatTrims(head, name, message);
    ChatEnd(name, tail, TrimRight(message));
    assert s[0] == head[0];
    assert s[|s| - 1] == (name + tail)[|name + tail| - 1];
  }

  lemma ChatStarts(head: string, scope: string)
    requires ChatHead(head, scope)
    ensures head != "" && head[0] == 'E'
  {
    assert head[0] == "EVT"[0];
  }

  lemma ChatShape(head: string, scope: string, name: string, tail: string)
    requires ChatHead(head, scope)
    ensures var s := head + name + tail;
      && s == "EVT" + " " + scope + " " + ("CHAT" + " " + (name + tail))
      && (HasPrefix(s, "EVT GROUP CHAT") || HasPrefix(s, "EVT ROOM CHAT") || HasPrefix(s, "EVT GLOBAL CHAT"))
  {
    var s := head + name + tail;
    Assoc(head, name, tail);
    Prefixed(head, name + tail);
    Assoc("EVT" + " " + scope + " ", "CHAT" + " ", name + tail);
  }

  lemma TrimmedParses(line: string, s: string)
    requires TrimSpace(line) == s && s != "" && !IsSpace(s[0]) && !IsSpace(s[|s| - 1])
    ensures ParseServerReply(line) == ParseServerReply(s)
  {
    TrimSpaceKeeps(s);
  }

  lemma ChatBody(s: string, scope: string, name: string, tail: string, text: string)
    requires IsWord(scope) && scope != "receives" && IsWord(name)
    requires tail == if text == "" then "" else " " + text
    requires text != "" ==> !IsSpace(text[|text| - 1])
    requires s == "EVT" + " " + scope + " " + ("CHAT" + " " + (name + tail))
    requires HasPrefix(s, "EVT GROUP CHAT") || HasPrefix(s, "EVT ROOM CHAT") || HasPrefix(s, "EVT GLOBAL CHAT")
    ensures ParseServerReply(s) == Chat(scope, name, text)
  {
    var rest := "CHAT" + " " + (name + tail);
    ChatEnd(name, tail, text);
    assert rest[|rest| - 1] == (name + tail)[|name + tail| - 1];
    EventParses(s, scope, rest);
    ChatBranch(s);
    ChatFields(scope, name, tail, text);
  }

  lemma ChatEnd(name: string, tail: string, text: string)
    requires IsWord(name) && tail == if text == "" then "" else " " + text
    requires text != "" ==> !IsSpace(text[|text| - 1])
    ensures name + tail != "" && !IsSpace((name + tail)[|name + tail| - 1])
  {
    if text != "" {
      assert (name + tail)[|name + tail| - 1] == text[|text| - 1];
    }
  }

  lemma Assoc(a: string, b: string, c: string)
    ensures a + b + c == a + (b + c)
  {
  }

  lemma ChatFields(scope: string, name: string, tail: string, text: string)
    requires IsWord(scope) && IsWord(name) && tail == if text == "" then "" else " " + text
    ensures ChatOf("EVT" + " " + scope + " " + ("CHAT" + " " + (name + tail))) == Chat(scope, name, text)
  {
    SplitIn5("EVT", scope, "CHAT", name + tail);
    if tail == "" {
      assert name + tail == name;
      SplitWord(name, 2);
    } else {
      assert name + tail == name + " " + text;
      SplitStep(name, text, 2);
    }
  }

  lemma {:induction false} TrimEnd(t: string)
    ensures TrimRight(t) != "" ==> !IsSpace(TrimRight(t)[|TrimRight(t)| - 1])
    decreases |t|
  {
    if t != [] && IsSpace(t[|t| - 1]) {
      TrimEnd(t[..|t| - 1]);
    }
  }

  lemma ChatTrims(head: string, name: string, message: string)
    requires IsWord(name) && head != "" && head[0] == 'E'
    ensures TrimSpace(head + name + " " + message) ==
            head + name + (if TrimRight(message) == "" then "" else " " + TrimRight(message))
  {
    var front := head + name;
    LastOf(head, name);
    assert front + " " + message == front + ([' '] + message);
    TrimRightKeeps(front, [' '] + message);
    TrimRightLead(' ', message);
    assert (front + " " + message)[0] == 'E';
  }

  /** The player count comes back through decimal printing and parsing. */
  lemma CountRoundTrip(n: nat)
    requires n <= MAX_INT
    ensures ParseServerReply(EvtPlayerCount(n)) == ServerCount(n)
  {
    var d := Itoa(n);
    CountWords(d);
    LastOf("players=", d);
    EventParses("EVT STATS players=" + d, "STATS", "players=" + d);
    Prefixed("EVT STATS players=", d);
    CountBranch("EVT STATS players=" + d);
    CountFields(n);
  }

  lemma CountFields(n: nat)
    requires n <= MAX_INT
    ensures CountOf("EVT STATS players=" + Itoa(n)) == ServerCount(n)
  {
    var d := Itoa(n);
    var s := "EVT STATS players=" + d;
    CountWords(d);
    assert s[0] == 'E';
    NotOK(s, "OK ");
    LastOf("EVT STATS players=", d);
    TrimSpaceKeeps(s);
    SplitAtEquals("EVT STATS players", d);
    AtoiOfItoa(n);
  }

  lemma CountWords(d: string)
    ensures "EVT STATS players=" + d == "EVT" + " " + "STATS" + " " + ("players=" + d)
    ensures "EVT STATS players=" + d == "EVT STATS players" + "=" + d
  {
    assert "EVT STATS players=" == "EVT STATS players" + "=";
    assert "EVT STATS players=" == "EVT" + " " + "STATS" + " " + "players=";
  }

  lemma DigitsAreWord(d: string)
    requires AllDigits(d)
    ensures IsWord(d)
  {
  }

  lemma SplitAtEquals(head: string, tail: string)
    requires forall i :: 0 <= i < |head| ==> head[i] != '='
    ensures SplitN(head + "=" + tail, '=', 2) == [head, tail]
  {
    var s := head + "=" + tail;
    assert s[|head|] == '=' && forall i :: 0 <= i < |head| ==> s[i] == head[i];
    var k := IndexOf(s, '=');
    assert s[..|head|] == head && s[|head| + 1..] == tail;
  }

  /** The respawn event. */
  lemma RespawnRoundTrip()
    ensures ParseServerReply(EvtPlayerRespawn()) == Respawned("zone.chapel")
  {
    var s := EvtPlayerRespawn();
    assert s == "EVT RESPAWN room=" + "zone.chapel";
    Prefixed("EVT RESPAWN room=", "zone.chapel");
    assert "EVT RESPAWN room=" == "EVT" + " " + "RESPAWN" + " " + "room=";
    assert s == "EVT" + " " + "RESPAWN" + " " + ("room=" + "zone.chapel");
    EventParses(s, "RESPAWN", "room=" + "zone.chapel");
  }

  // ---- Replies ----

  /** The plain acknowledgement. */
  lemma OkRoundTrip()
    ensures ParseServerReply("OK") == Ignore
  {
    FieldsWord("OK");
    TrimSpaceKeeps("OK");
  }

  /** A reply of two words that both start plainly is no reward. */
  lemma TwoWords(s: string, a: string, b: string)
    requires s == a + " " + b && IsWord(a) && IsWord(b) && b != "receives" && b != "receives."
    ensures ParseServerReply(s) == ParseCases(s)
  {
    FieldsStep(a, b);
    FieldsWord(b);
    assert s[0] == a[0] && s[|s| - 1] == b[|b| - 1];
    TrimSpaceKeeps(s);
    if HasSuffix(s, ".") {
      DropDot(a, b);
      FieldsStep(a, b[..|b| - 1]);
      if |b| > 1 {
        FieldsWord(b[..|b| - 1]);
      }
    }
  }

  lemma GroupReplyWord(head: string, leader: string)
    requires IsWord(leader) && (head == "group=NEWPT-" || head == "group=PT-")
    ensures IsWord(head + leader) && head + leader != "receives" && head + leader != "receives."
  {
    assert (head + leader)[0] == 'g';
  }

  lemma OkFields(w: string)
    requires IsWord(w)
    ensures |Fields("OK" + " " + w)| == 2
  {
    FieldsStep("OK", w);
    FieldsWord(w);
  }

  lemma NotJsonAt(s: string, key: string)
    requires |s| > 3 && s[3] != '{'
    ensures !JsonObject(s, key)
  {
    Differs(s, "OK {\"" + key, 3);
    Differs(s, "OK { \"" + key, 3);
  }

  lemma NoObject(s: string)
    requires |s| > 3 && s[3] != '{'
    ensures !JsonObject(s, "room\"") && !JsonObject(s, "hp\"") && !JsonObject(s, "name\"") && !JsonObject(s, "attack")
  {
    NotJsonAt(s, "room\"");
    NotJsonAt(s, "hp\"");
    NotJsonAt(s, "name\"");
    NotJsonAt(s, "attack");
  }

  lemma ReplySkipsFirst(s: string, w: string)
    requires IsWord(w) && |w| > 1 && w[0] != '[' && w[0] != 'b' && w[0] != '{' && w[0] != 'r' && s == "OK" + " " + w
    ensures ParseCases(s) == ParseEvents(s)
  {
    assert s[0] == 'O' && s[3] == w[0];
    NotBracket(s);
    OkFields(w);
    Differs(s, "OK room=", 3);
    NoObject(s);
  }

  lemma NotBracket(s: string)
    requires |s| > 4 && s[0] == 'O' && s[3] != '[' && s[3] != 'b' && !IsSpace(s[3])
    ensures TrimSpace(TrimSuffix(s, "]")) != "OK [" && s != "OK" && s != "OK battle ended"
  {
    var t := TrimSuffix(s, "]");
    assert s[3] != "OK battle ended"[3];
    TrimRightKeeps(t[..4], t[4..]);
    assert t[..4] + t[4..] == t;
    assert TrimSpace(t)[3] == s[3];
  }

  lemma ReplyCases(s: string, w: string)
    requires IsWord(w) && |w| > 1 && w[0] != '[' && w[0] != 'b' && w[0] != '{' && w[0] != 'r' && s == "OK" + " " + w
    ensures ParseServerReply(s) == ParseEvents(s)
  {
    TwoWords(s, "OK", w);
    ReplySkipsFirst(s, w);
  }

  lemma NoEvent(s: string, p: string)
    requires |s| > 0 && s[0] == 'O' && p != "" && p[0] == 'E'
    ensures !HasPrefix(s, p)
  {
    Differs(s, p, 0);
  }

  lemma GroupReplySkipsEvents(s: string)
    requires |s| > 3 && s[0] == 'O' && s[3] == 'g'
    requires HasPrefix(s, "OK group=NEWPT-") || HasPrefix(s, "OK group=PT-")
    ensures ParseEvents(s) == if HasPrefix(s, "OK group=NEWPT-") then Group("CREATE", TrimPrefix(s, "OK group=NEWPT-"))
                              else Group("JOIN", TrimPrefix(s, "OK group=PT-"))
  {
    Differs(s, "OK taken=", 3);
    Differs(s, "OK dropped=", 3);
    NoEvent(s, "EVT RESPAWN room=");
    NoEvent(s, "EVT ROOM PRESENCE ENTER");
    NoEvent(s, "EVT ROOM PRESENCE LEAVE");
    NoEvent(s, "EVT STATS players=");
    NoEvent(s, "EVT GROUP CHAT");
    NoEvent(s, "EVT ROOM CHAT");
    NoEvent(s, "EVT GLOBAL CHAT");
  }

  /** The answers to GROUP CREATE and GROUP JOIN come back with the leader. */
  lemma GroupReplyRoundTrip(leader: string)
    requires IsWord(leader)
    ensures ParseServerReply(GroupCreated(leader)) == Group("CREATE", leader)
    ensures ParseServerReply(GroupJoined(leader)) == Group("JOIN", leader)
  {
    CreatedLine(leader);
    JoinedLine(leader);
  }

  lemma CreatedWords(leader: string)
    ensures GroupCreated(leader) == "OK group=NEWPT-" + leader
    ensures GroupCreated(leader) == "OK" + " " + ("group=NEWPT-" + leader)
  {
    assert "OK group=NEW" + ("PT-" + leader) == "OK group=NEW" + "PT-" + leader;
    assert "OK group=NEW" + "PT-" == "OK group=NEWPT-";
    assert "OK group=NEWPT-" == "OK" + " " + "group=NEWPT-";
  }

  lemma JoinedWords(leader: string)
    ensures GroupJoined(leader) == "OK" + " " + ("group=PT-" + leader)
  {
    assert "OK group=PT-" == "OK" + " " + "group=PT-";
  }

  lemma CreatedLine(leader: string)
    requires IsWord(leader)
    ensures ParseServerReply(GroupCreated(leader)) == Group("CREATE", leader)
  {
    var s := GroupCreated(leader);
    CreatedWords(leader);
    GroupReplyWord("group=NEWPT-", leader);
    ReplyCases(s, "group=NEWPT-" + leader);
    Prefixed("OK group=NEWPT-", leader);
    assert s[3] == 'g';
    GroupReplySkipsEvents(s);
  }

  lemma JoinedLine(leader: string)
    requires IsWord(leader)
    ensures ParseServerReply(GroupJoined(leader)) == Group("JOIN", leader)
  {
    var s := GroupJoined(leader);
    JoinedWords(leader);
    GroupReplyWord("group=PT-", leader);
    ReplyCases(s, "group=PT-" + leader);
    Prefixed("OK group=PT-", leader);
    JoinedIsNotNew(s);
    GroupReplySkipsEvents(s);
  }

  lemma JoinedIsNotNew(s: string)
    requires HasPrefix(s, "OK group=PT-")
    ensures s[0] == 'O' && s[3] == 'g' && !HasPrefix(s, "OK group=NEWPT-")
  {
    PrefixAt(s, "OK group=PT-", 0);
    PrefixAt(s, "OK group=PT-", 3);
    PrefixAt(s, "OK group=PT-", 9);
    Differs(s, "OK group=NEWPT-", 9);
  }

  /** An error line comes back with its code and its text. */
  lemma ErrorRoundTrip(code: nat, text: string)
    requires code <= MAX_INT && text != "" && !IsSpace(text[|text| - 1])
    ensures ParseServerReply(ErrorLine(code, text)) == Error(code, text)
  {
    ErrorWords(Itoa(code), text);
    ErrorLineParses(ErrorLine(code, text), Itoa(code), text);
    ErrorFields(code, text);
  }

  lemma ErrorLineParses(s: string, d: string, text: string)
    requires AllDigits(d) && text != "" && !IsSpace(text[|text| - 1])
    requires s == "ERR" + " " + d + " " + text && s == "ERR " + (d + " " + text)
    ensures ParseServerReply(s) == ErrorOf(s)
  {
    DigitsAreWord(d);
    assert d[0] != 'r';
    assert s[|s| - 1] == text[|text| - 1];
    ReadsAs(s, "ERR", d, text);
    Prefixed("ERR ", d + " " + text);
    PrefixAt(s, "ERR ", 0);
    PrefixAt(s, "ERR ", 1);
    ErrorBranch(s);
  }

  lemma ErrorWords(d: string, text: string)
    ensures "ERR " + d + " " + text == "ERR" + " " + d + " " + text
    ensures "ERR " + d + " " + text == "ERR " + (d + " " + text)
  {
    assert "ERR " == "ERR" + " ";
  }

  lemma ErrorFields(code: nat, text: string)
    requires code <= MAX_INT
    ensures ErrorOf("ERR" + " " + Itoa(code) + " " + text) == Error(code, text)
  {
    DigitsAreWord(Itoa(code));
    SplitTwo("ERR", Itoa(code), text, 3);
    AtoiOfItoa(code);
  }

  lemma ErrorBranch(s: string)
    requires HasPrefix(s, "ERR ") && s[0] == 'E' && s[1] == 'R'
    ensures ParseCases(s) == ErrorOf(s)
  {
    EventsSkipTheFirst(s);
    ErrorSkipsEvents(s);
    ErrorSkipsLast(s);
  }

  lemma ErrorSkipsEvents(s: string)
    requires |s| > 1 && s[0] == 'E' && s[1] == 'R'
    ensures ParseEvents(s) == ParseLast(s)
  {
    NotOK(s, "OK taken=");
    NotOK(s, "OK dropped=");
    NotOK(s, "OK group=NEWPT-");
    NotOK(s, "OK group=PT-");
    Differs(s, "EVT RESPAWN room=", 1);
    Differs(s, "EVT ROOM PRESENCE ENTER", 1);
    Differs(s, "EVT ROOM PRESENCE LEAVE", 1);
    Differs(s, "EVT STATS players=", 1);
    Differs(s, "EVT GROUP CHAT", 1);
    Differs(s, "EVT ROOM CHAT", 1);
    Differs(s, "EVT GLOBAL CHAT", 1);
    Differs(s, "EVT GROUP ", 1);
  }

  lemma ErrorSkipsLast(s: string)
    requires HasPrefix(s, "ERR ") && s[0] == 'E'
    ensures ParseLast(s) == ErrorOf(s)
  {
    NotOK(s, "OK ");
    NoOKLists(s);
    NoJson(s, "quest_id\"");
  }

  /** TAKE and DROP are answered with the item. */
  lemma TakeDropRoundTrip(item: string)
    requires IsWord(item)
    ensures ParseServerReply(ItemTaken(item)) == TakeDrop("taken", item)
    ensures ParseServerReply(ItemDropped(item)) == TakeDrop("dropped", item)
  {
    TakenWords(item);
    TakeDropLine(ItemTaken(item), "taken", item);
    DroppedWords(item);
    TakeDropLine(ItemDropped(item), "dropped", item);
  }

  ghost predicate TakeDropWords(s: string, verb: string, item: string) {
    && s == "OK" + " " + (verb + "=" + item) && (HasPrefix(s, "OK taken=") || HasPrefix(s, "OK dropped="))
    && IsWord(verb) && |verb| > 2 && (verb[0] == 't' || verb[0] == 'd') && forall i :: 0 <= i < |verb| ==> verb[i] != '='
  }

  lemma TakenWords(item: string)
    ensures TakeDropWords(ItemTaken(item), "taken", item)
  {
    assert "OK taken=" == "OK" + " " + ("taken" + "=");
    Prefixed("OK taken=", item);
    Assoc("OK" + " ", "taken" + "=", item);
  }

  lemma DroppedWords(item: string)
    ensures TakeDropWords(ItemDropped(item), "dropped", item)
  {
    assert "OK dropped=" == "OK" + " " + ("dropped" + "=");
    Prefixed("OK dropped=", item);
    Assoc("OK" + " ", "dropped" + "=", item);
  }

  lemma TakeDropLine(s: string, verb: string, item: string)
    requires IsWord(item) && TakeDropWords(s, verb, item)
    ensures ParseServerReply(s) == TakeDrop(verb, item)
  {
    VerbIsWord(verb, item);
    ReplyCases(s, verb + "=" + item);
    assert s[0] == 'O';
    NoEvent(s, "EVT RESPAWN room=");
    TakeDropParts(verb, item);
  }

  lemma TakeDropParts(verb: string, item: string)
    requires IsWord(verb + "=" + item) && forall i :: 0 <= i < |verb| ==> verb[i] != '='
    ensures TakeDropOf("OK" + " " + (verb + "=" + item)) == TakeDrop(verb, item)
  {
    var w := verb + "=" + item;
    assert "OK" + " " == "OK ";
    Prefixed("OK ", w);
    TrimSpaceKeeps(w);
    SplitAtEquals(verb, item);
  }

  lemma VerbIsWord(verb: string, item: string)
    requires IsWord(verb) && IsWord(item) && |verb| > 2
    ensures IsWord(verb + "=" + item) && (verb + "=" + item)[0] == verb[0]
  {
    forall i | 0 <= i < |verb + "=" + item| ensures !IsSpace((verb + "=" + item)[i]) {
      assert i > |verb| ==> (verb + "=" + item)[i] == item[i - |verb| - 1];
    }
  }

  /** MOVE is answered with the room. */
  lemma RoomRoundTrip(zone: string)
    requires IsWord(zone)
    ensures ParseServerReply(RoomMoved(zone)) == RoomMove(zone)
  {
    var s := RoomMoved(zone);
    assert "OK room=" == "OK" + " " + "room=";
    Assoc("OK" + " ", "room=", zone);
    assert ("room=" + zone)[0] == 'r' && ("room=" + zone)[1] == 'o';
    RoomIsWord(zone);
    TwoWords(s, "OK", "room=" + zone);
    NotBracket(s);
    Prefixed("OK room=", zone);
  }

  lemma RoomIsWord(zone: string)
    requires IsWord(zone)
    ensures IsWord("room=" + zone)
  {
  }

  /** GOLD is answered with the balance. */
  lemma BalanceRoundTrip(gold: nat)
    requires gold <= MAX_INT
    ensures ParseServerReply(GoldBalance(gold)) == Gold(gold)
  {
    BalanceWords(Itoa(gold));
    AtoiOfItoa(gold);
    BalanceLine(GoldBalance(gold), Itoa(gold));
  }

  lemma BalanceLine(s: string, d: string)
    requires AllDigits(d) && Atoi(d).Some? && s == "OK" + " " + d + " " + "GOLD" && HasSuffix(s, "GOLD")
    ensures ParseServerReply(s) == Gold(Atoi(d).value)
  {
    DigitsAreWord(d);
    BalanceFields(d);
    assert d[0] != 'r';
    LastOf("OK" + " " + d + " ", "GOLD");
    ReadsAs(s, "OK", d, "GOLD");
    BalanceBranch(s, d);
  }

  lemma BalanceWords(d: string)
    ensures "OK " + d + " GOLD" == "OK" + " " + d + " " + "GOLD"
    ensures HasSuffix("OK" + " " + d + " " + "GOLD", "GOLD")
  {
    assert "OK " == "OK" + " " && " GOLD" == " " + "GOLD";
  }

  lemma BalanceFields(d: string)
    requires IsWord(d)
    ensures Fields("OK" + " " + d + " " + "GOLD") == ["OK", d, "GOLD"]
  {
    SecondWord("OK", d, "GOLD");
    FieldsWord("GOLD");
  }

  lemma BalanceBranch(s: string, d: string)
    requires AllDigits(d) && s == "OK" + " " + d + " " + "GOLD" && Fields(s) == ["OK", d, "GOLD"] && HasSuffix(s, "GOLD")
    requires Atoi(d).Some?
    ensures ParseCases(s) == Gold(Atoi(d).value)
  {
    assert s[0] == 'O' && s[3] == d[0] && IsDigit(d[0]);
    NotBracket(s);
    Differs(s, "OK room=", 3);
    NoObject(s);
    assert "OK" + " " == "OK ";
    Regroup("OK ", d, "GOLD");
    Prefixed("OK ", d + " " + "GOLD");
  }

  // ---- Rewards ----

  /** A key item whose name survives splitting at white space. */
  predicate Normal(item: string) {
    item != "" && item == Join(Fields(item))
  }

  /** A key item whose reward line looks like a payment. */
  predicate LooksLikeGold(item: string) {
    var words := Fields(item);
    |words| == 2 && words[1] == "gold" && Atoi(words[0]).Some?
  }

  lemma NormalEnds(item: string)
    requires Normal(item)
    ensures !IsSpace(item[|item| - 1])
  {
    FieldsAreWords(item);
    JoinEnds(Fields(item));
  }

  lemma RewardShape(name: string, item: string)
    requires IsWord(name)
    ensures var s := KeyItemReward(name, item);
      TrimSpace(s) == s && TrimSuffix(s, ".") == name + " " + "receives" + " " + item && HasSuffix(s, ".")
  {
    var s := KeyItemReward(name, item);
    var body := name + " receives " + item;
    assert s == body + ".";
    assert s[0] == name[0] && s[|s| - 1] == '.';
    TrimSpaceKeeps(s);
    assert " receives " == " " + "receives" + " ";
    assert body == name + " " + "receives" + " " + item;
  }

  lemma RewardWords(name: string, item: string)
    ensures KeyItemReward(name, item) == name + " " + "receives" + " " + (item + ".")
  {
    assert " receives " == " " + "receives" + " ";
  }

  lemma RewardFields(name: string, item: string)
    requires IsWord(name)
    ensures Fields(KeyItemReward(name, item)) == [name, "receives"] + Fields(item + ".")
  {
    RewardWords(name, item);
    SecondWord(name, "receives", item + ".");
  }

  lemma UndottedFields(name: string, item: string)
    requires IsWord(name)
    ensures Fields(TrimSuffix(KeyItemReward(name, item), ".")) == [name, "receives"] + Fields(item)
  {
    RewardShape(name, item);
    SecondWord(name, "receives", item);
  }

  lemma DottedGold(w: string)
    ensures w + ['.'] == "gold." <==> w == "gold"
  {
    assert w + ['.'] == "gold." ==> w == (w + ['.'])[..|w|] == "gold."[..4] == "gold";
  }

  lemma GoldLooks(name: string, item: string)
    requires IsWord(name) && Normal(item)
    ensures IsGoldReward(KeyItemReward(name, item)) ==
            if LooksLikeGold(item) then Some((name, Atoi(Fields(item)[0]).value)) else None
  {
    RewardFields(name, item);
    NormalEnds(item);
    FieldsSnoc(item, '.');
    GoldOfWords(KeyItemReward(name, item), name, item, Fields(item + "."));
  }

  lemma GoldOfWords(s: string, name: string, item: string, dotted: seq<string>)
    requires Fields(item) != []
    requires dotted == Fields(item)[..|Fields(item)| - 1] + [Fields(item)[|Fields(item)| - 1] + ['.']]
    requires Fields(s) == [name, "receives"] + dotted
    ensures IsGoldReward(s) == if LooksLikeGold(item) then Some((name, Atoi(Fields(item)[0]).value)) else None
  {
    var words := Fields(item);
    if |words| == 2 {
      assert Fields(s) == [name, "receives", words[0], words[1] + ['.']];
      DottedGold(words[1]);
    }
  }

  lemma ItemLooks(name: string, item: string)
    requires IsWord(name)
    ensures IsKeyItemReward(KeyItemReward(name, item)) ==
            if Fields(item) == [] then None else Some((name, Join(Fields(item))))
  {
    RewardShape(name, item);
    UndottedFields(name, item);
    assert ([name, "receives"] + Fields(item))[2..] == Fields(item);
  }

  /** A key-item reward line comes back exactly when the item's name is normal and does
      not look like a payment. */
  lemma KeyItemRoundTrip(name: string, item: string)
    requires IsWord(name)
    ensures ParseServerReply(KeyItemReward(name, item)) == RewardItem(name, item) <==> Normal(item) && !LooksLikeGold(item)
  {
    RewardShape(name, item);
    ItemLooks(name, item);
    if Normal(item) {
      GoldLooks(name, item);
    } else {
      NotNormalIsLost(name, item);
    }
  }

  lemma NotNormalIsLost(name: string, item: string)
    requires IsWord(name) && !Normal(item)
    ensures ParseServerReply(KeyItemReward(name, item)) != RewardItem(name, item)
  {
    RewardShape(name, item);
    ItemLooks(name, item);
    if Fields(item) == [] {
      RewardFields(name, item);
      NoSuchReward(KeyItemReward(name, item), name, item);
    }
  }

  /** What looks like a payment is read as one. */
  lemma ReadAsGold(name: string, item: string)
    requires IsWord(name) && Normal(item) && LooksLikeGold(item)
    ensures ParseServerReply(KeyItemReward(name, item)) == RewardGold(name, Atoi(Fields(item)[0]).value)
  {
    RewardShape(name, item);
    GoldLooks(name, item);
  }

  lemma LastIsNoReward(s: string)
    ensures !ParseLast(s).RewardItem?
  {
  }

  lemma EventIsNoReward(s: string)
    ensures !ParseEvents(s).RewardItem?
  {
    LastIsNoReward(s);
  }

  lemma CaseIsNoReward(s: string)
    ensures !ParseCases(s).RewardItem?
  {
    EventIsNoReward(s);
  }

  lemma NoSuchReward(s: string, name: string, item: string)
    requires IsKeyItemReward(s).None? && TrimSpace(s) == s
    ensures ParseServerReply(s) != RewardItem(name, item)
  {
    CaseIsNoReward(s);
  }

  /** A payment comes back with its receiver and its amount. */
  lemma GoldRoundTrip(name: string, gold: nat)
    requires IsWord(name) && gold <= MAX_INT
    ensures ParseServerReply(GoldReward(name, gold)) == RewardGold(name, gold)
  {
    var d := Itoa(gold);
    DigitsAreWord(d);
    GoldWords(name, d);
    GoldFields(d);
    AtoiOfItoa(gold);
    GoldIsNormal(d);
    ReadAsGold(name, d + " " + "gold");
  }

  lemma GoldWords(name: string, d: string)
    ensures name + " receives " + d + " gold." == name + " receives " + (d + " " + "gold") + "."
  {
    assert " gold." == " " + "gold" + ".";
  }

  lemma GoldFields(d: string)
    requires IsWord(d)
    ensures Fields(d + " " + "gold") == [d, "gold"]
  {
    FieldsStep(d, "gold");
    FieldsWord("gold");
  }

  lemma GoldIsNormal(d: string)
    requires IsWord(d)
    ensures Normal(d + " " + "gold")
  {
    GoldFields(d);
    assert [d, "gold"][1..] == ["gold"];
    assert Join(["gold"]) == "gold";
  }

  // ---- For every name the server accepts ----

  /** Every event and reply that carries a name is read back with that name. */
  ghost predicate ReadBack(name: string) {
    && ParseServerReply(EvtZoneEnter(name)) == Presence("ENTER", name)
    && ParseServerReply(EvtZoneLeave(name)) == Presence("LEAVE", name)
    && ParseServerReply(EvtPartyInvite(name)) == Group("INVITE", name)
    && ParseServerReply(EvtPartyJoin(name)) == Group("JOIN", name)
    && ParseServerReply(EvtPartyLeave(name)) == Group("LEAVE", name)
    && ParseServerReply(GroupCreated(name)) == Group("CREATE", name)
    && ParseServerReply(GroupJoined(name)) == Group("JOIN", name)
    && (forall gold: nat :: gold <= MAX_INT ==> ParseServerReply(GoldReward(name, gold)) == RewardGold(name, gold))
    && (forall message :: ChatReadBack(name, message))
  }

  ghost predicate ChatReadBack(name: string, message: string) {
    && ParseServerReply(EvtZoneChat(name, message)) == Chat("ROOM", name, TrimRight(message))
    && ParseServerReply(EvtGlobalChat(name, message)) == Chat("GLOBAL", name, TrimRight(message))
    && ParseServerReply(EvtPartyChat(name, message)) == Chat("GROUP", name, TrimRight(message))
  }

  lemma AcceptedNameIsReadBack(r: Runes, args: string)
    requires r.Ok() && CheckName(r, args).Accepted?
    ensures ReadBack(CheckName(r, args).name)
  {
    AcceptedIsWord(r, args);
    WordIsReadBack(CheckName(r, args).name);
  }

  lemma WordIsReadBack(name: string)
    requires IsWord(name)
    ensures ReadBack(name)
  {
    PresenceRoundTrip(name);
    GroupRoundTrip(name);
    GroupReplyRoundTrip(name);
    forall gold: nat | gold <= MAX_INT ensures ParseServerReply(GoldReward(name, gold)) == RewardGold(name, gold) {
      GoldRoundTrip(name, gold);
    }
    forall message ensures ChatReadBack(name, message) {
      ChatRoundTrip(name, message);
    }
  }
}
