/** Lines that look like one of the server's and are not: what the client's parser makes of them. */
module WireMalformed {
  import opened Wrappers
  import opened GoStrings
  import opened Wire

  // ---- Numbers ----

  predicate Signed(s: string) {
    s != "" && (s[0] == '+' || s[0] == '-') && AllDigits(s[1..])
  }

  lemma PlainNumbers(s: string)
    requires AllDigits(s)
    ensures Atoi(s) == if Value(s) < 0x8000_0000_0000_0000 then Some(Value(s)) else None
  {
    assert IsDigit(s[0]);
  }

  lemma PlusNumbers(s: string)
    requires Signed(s) && s[0] == '+'
    ensures Atoi(s) == Atoi(s[1..])
  {
    assert IsDigit(s[1..][0]);
  }

  /** A number is digits with a sign or none, in the range of 64 bits; anything else is none. */
  lemma NumbersExactly(s: string)
    ensures AllDigits(s) ==> Atoi(s) == if Value(s) < 0x8000_0000_0000_0000 then Some(Value(s)) else None
    ensures Signed(s) && s[0] == '+' ==> Atoi(s) == Atoi(s[1..])
    ensures Signed(s) && s[0] == '-' ==> Atoi(s) == if Value(s[1..]) <= 0x8000_0000_0000_0000 then Some(0 - Value(s[1..])) else None
    ensures !AllDigits(s) && !Signed(s) ==> Atoi(s) == None
  {
    if AllDigits(s) {
      PlainNumbers(s);
    } else if Signed(s) && s[0] == '+' {
      PlusNumbers(s);
    }
  }

  // ---- Errors ----

  lemma ErrorRead(s: string, d: string, text: string)
    requires IsWord(d) && d != "receives" && text != "" && !IsSpace(text[|text| - 1])
    requires s == "ERR" + " " + d + " " + text && s == "ERR " + (d + " " + text)
    ensures ParseServerReply(s) == ErrorOf(s)
  {
    assert s[|s| - 1] == text[|text| - 1];
    ReadsAs(s, "ERR", d, text);
    Prefixed("ERR ", d + " " + text);
    PrefixAt(s, "ERR ", 0);
    PrefixAt(s, "ERR ", 1);
    ErrorBranch(s);
  }

  lemma ErrorParts(d: string, text: string)
    requires IsWord(d)
    ensures ErrorOf("ERR" + " " + d + " " + text) == if Atoi(d).Some? then Error(Atoi(d).value, text) else Malformed
  {
    SplitTwo("ERR", d, text, 3);
  }

  /** An error line needs a number and a text. */
  lemma ErrorsExactly(d: string, text: string)
    requires IsWord(d) && d != "receives" && text != "" && !IsSpace(text[|text| - 1])
    ensures ParseServerReply("ERR " + d + " " + text) == if Atoi(d).Some? then Error(Atoi(d).value, text) else Malformed
  {
    ErrorWords(d, text);
    ErrorRead("ERR " + d + " " + text, d, text);
    ErrorParts(d, text);
  }

  lemma TwoFieldsNoReward(a: string, b: string)
    requires IsWord(a) && IsWord(b)
    ensures IsGoldReward(a + " " + b).None? && IsKeyItemReward(a + " " + b).None?
  {
    FieldsStep(a, b);
    FieldsWord(b);
    if HasSuffix(a + " " + b, ".") {
      ShortFields(a, b);
    }
  }

  lemma ShortFields(a: string, b: string)
    requires IsWord(a) && IsWord(b)
    ensures var s := a + " " + b; |Fields(s[..|s| - 1])| <= 2
  {
    var s, c := a + " " + b, b[..|b| - 1];
    assert s[..|s| - 1] == a + " " + c;
    FieldsStep(a, c);
    if c != "" {
      FieldsWord(c);
    }
  }

  lemma ErrorWithoutText(d: string)
    requires IsWord(d)
    ensures ParseServerReply("ERR " + d) == Malformed
  {
    var s := "ERR " + d;
    assert s == "ERR" + " " + d;
    LastOf("ERR ", d);
    PrefixAt(s, "ERR ", 0);
    Prefixed("ERR ", d);
    PrefixAt(s, "ERR ", 1);
    TrimSpaceKeeps(s);
    TwoFieldsNoReward("ERR", d);
    ErrorBranch(s);
    SplitStep("ERR", d, 3);
    SplitWord(d, 2);
  }

  // ---- Events ----

  lemma CountLine(d: string)
    requires IsWord(d)
    ensures ParseServerReply("EVT STATS players=" + d) == CountOf("EVT STATS players=" + d)
  {
    CountWords(d);
    LastOf("players=", d);
    EventParses("EVT STATS players=" + d, "STATS", "players=" + d);
    Prefixed("EVT STATS players=", d);
    CountBranch("EVT STATS players=" + d);
  }

  lemma CountParts(d: string)
    requires IsWord(d)
    ensures CountOf("EVT STATS players=" + d) == if Atoi(d).Some? then ServerCount(Atoi(d).value) else Malformed
  {
    var s := "EVT STATS players=" + d;
    CountWords(d);
    assert s[0] == 'E';
    NotOK(s, "OK ");
    LastOf("EVT STATS players=", d);
    TrimSpaceKeeps(s);
    SplitAtEquals("EVT STATS players", d);
  }

  /** A player count needs a number. */
  lemma CountsExactly(d: string)
    requires IsWord(d)
    ensures ParseServerReply("EVT STATS players=" + d) == if Atoi(d).Some? then ServerCount(Atoi(d).value) else Malformed
  {
    CountLine(d);
    CountParts(d);
  }

  predicate IsDirection(direction: string) {
    direction == "ENTER" || direction == "LEAVE"
  }

  lemma PresenceHead(direction: string, rest: string)
    requires IsDirection(direction)
    ensures PresenceWords("EVT ROOM PRESENCE " + direction + " " + rest, direction, rest)
  {
    if direction == "ENTER" {
      EnterWords(rest);
      assert "EVT ROOM PRESENCE " + direction + " " + rest == "EVT ROOM PRESENCE ENTER " + rest;
    } else {
      LeaveWords(rest);
      assert "EVT ROOM PRESENCE " + direction + " " + rest == "EVT ROOM PRESENCE LEAVE " + rest;
    }
  }

  lemma EndsIn(head: string, rest: string)
    requires rest != "" && !IsSpace(rest[|rest| - 1])
    ensures head + rest != "" && !IsSpace((head + rest)[|head + rest| - 1])
  {
  }

  lemma PresenceFieldsOf(direction: string, rest: string)
    requires IsWord(direction)
    ensures Fields("EVT" + " " + "ROOM" + " " + ("PRESENCE" + " " + direction + " " + rest)) ==
            ["EVT", "ROOM"] + (["PRESENCE", direction] + Fields(rest))
  {
    SecondWord("EVT", "ROOM", "PRESENCE" + " " + direction + " " + rest);
    SecondWord("PRESENCE", direction, rest);
  }

  lemma PresenceParts(direction: string, rest: string)
    requires IsWord(direction)
    ensures PresenceOf("EVT" + " " + "ROOM" + " " + ("PRESENCE" + " " + direction + " " + rest)) ==
            if |Fields(rest)| == 1 then Presence(direction, Fields(rest)[0]) else Malformed
  {
    PresenceFieldsOf(direction, rest);
  }

  lemma PresenceRead(s: string, direction: string, rest: string)
    requires PresenceWords(s, direction, rest) && rest != "" && !IsSpace(rest[|rest| - 1])
    ensures ParseServerReply(s) == PresenceOf(s)
  {
    PresenceBranch(s);
    EndsIn("PRESENCE" + " " + direction + " ", rest);
    EventParses(s, "ROOM", "PRESENCE" + " " + direction + " " + rest);
  }

  /** A presence event is of exactly one player. */
  lemma PresenceExactly(direction: string, rest: string)
    requires IsDirection(direction) && rest != "" && !IsSpace(rest[|rest| - 1])
    ensures ParseServerReply("EVT ROOM PRESENCE " + direction + " " + rest) ==
            if |Fields(rest)| == 1 then Presence(direction, Fields(rest)[0]) else Malformed
  {
    PresenceHead(direction, rest);
    PresenceRead("EVT ROOM PRESENCE " + direction + " " + rest, direction, rest);
    PresenceParts(direction, rest);
  }

  lemma GroupParts(action: string)
    requires IsWord(action)
    ensures GroupOf("EVT" + " " + "GROUP" + " " + action) == Malformed
  {
    SplitTwo("EVT", "GROUP", action, 4);
    SplitWord(action, 2);
  }

  lemma GroupLineHead(action: string)
    requires IsWord(action)
    ensures "EVT GROUP " + action == "EVT" + " " + "GROUP" + " " + action
    ensures HasPrefix("EVT GROUP " + action, "EVT GROUP ") && |"EVT GROUP " + action| > 10 && ("EVT GROUP " + action)[10] == action[0]
  {
    assert "EVT GROUP " == "EVT" + " " + "GROUP" + " ";
    Prefixed("EVT GROUP ", action);
  }

  /** A group event needs a player. */
  lemma GroupWithoutPlayer(action: string)
    requires IsWord(action) && action[0] != 'C'
    ensures ParseServerReply("EVT GROUP " + action) == Malformed
  {
    GroupLineHead(action);
    GroupBranch("EVT GROUP " + action);
    EventParses("EVT GROUP " + action, "GROUP", action);
    GroupParts(action);
  }

  // ---- The balance ----

  lemma BalanceParses(s: string, d: string)
    requires IsWord(d) && d != "receives" && s == "OK" + " " + d + " " + "GOLD"
    ensures ParseServerReply(s) == ParseCases(s)
  {
    LastOf("OK" + " " + d + " ", "GOLD");
    ReadsAs(s, "OK", d, "GOLD");
  }

  lemma BalanceCase(s: string, d: string)
    requires IsWord(d) && d[0] !in {'r', 'b', '{', '['} && s == "OK" + " " + d + " " + "GOLD"
    requires Fields(s) == ["OK", d, "GOLD"] && HasSuffix(s, "GOLD")
    ensures ParseCases(s) == if Atoi(d).Some? then Gold(Atoi(d).value) else Ignore
  {
    assert s[0] == 'O' && s[3] == d[0] && !IsSpace(d[0]);
    NotBracket(s);
    Differs(s, "OK room=", 3);
    NoObject(s);
    assert "OK" + " " == "OK ";
    Regroup("OK ", d, "GOLD");
    Prefixed("OK ", d + " " + "GOLD");
  }

  /** A balance that is no number is ignored. */
  lemma BalanceExactly(d: string)
    requires IsWord(d) && d[0] !in {'r', 'b', '{', '['}
    ensures ParseServerReply("OK " + d + " GOLD") == if Atoi(d).Some? then Gold(Atoi(d).value) else Ignore
  {
    BalanceWords(d);
    BalanceFields(d);
    BalanceParses("OK " + d + " GOLD", d);
    BalanceCase("OK " + d + " GOLD", d);
  }
}
