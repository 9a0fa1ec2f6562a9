/** How the client's parser sorts the JSON answers of the server, and the few fixed lines. */
module WireJson {
  import opened Wrappers
  import opened GoStrings
  import opened Wire

  /** A text between two brackets. */
  predicate Enclosed(t: string, open: char, close: char) {
    |t| >= 2 && t[0] == open && t[|t| - 1] == close
  }

  function Answer(t: string): string {
    "OK " + t
  }

  lemma AnswerBegins(t: string, p: string)
    ensures HasPrefix(Answer(t), "OK " + p) <==> HasPrefix(t, p)
  {
    var s := Answer(t);
    if |p| <= |t| {
      assert s[..3 + |p|] == "OK " + t[..|p|];
      assert ("OK " + p)[3..] == p;
    }
  }

  lemma AnswerTrims(t: string)
    requires t != "" && !IsSpace(t[0]) && !IsSpace(t[|t| - 1])
    ensures TrimSpace(Answer(t)) == Answer(t) && TrimSpace(TrimPrefix(Answer(t), "OK ")) == t
  {
    TrimSpaceKeeps(Answer(t));
    Prefixed("OK ", t);
    TrimSpaceKeeps(t);
  }

  lemma FirstField(t: string)
    requires t != "" && !IsSpace(t[0])
    ensures Fields(t) != [] && Fields(t)[0] != "" && Fields(t)[0][0] == t[0]
  {
  }

  lemma AnswerFields(t: string)
    requires t != "" && !IsSpace(t[0])
    ensures |Fields(Answer(t))| >= 2 && Fields(Answer(t))[1] != "" && Fields(Answer(t))[1][0] == t[0]
  {
    assert Answer(t) == "OK" + " " + t;
    FieldsStep("OK", t);
    FirstField(t);
  }

  /** An answer whose text does not begin with an r is no reward. */
  lemma AnswerIsNoReward(t: string)
    requires |t| >= 2 && !IsSpace(t[0]) && t[0] != 'r'
    ensures IsGoldReward(Answer(t)).None? && IsKeyItemReward(Answer(t)).None?
  {
    AnswerFields(t);
    if HasSuffix(Answer(t), ".") {
      var u := t[..|t| - 1];
      assert Answer(t)[..|Answer(t)| - 1] == Answer(u);
      AnswerFields(u);
    }
  }

  lemma AnswerParses(t: string)
    requires |t| >= 2 && !IsSpace(t[0]) && !IsSpace(t[|t| - 1]) && t[0] != 'r'
    ensures ParseServerReply(Answer(t)) == ParseCases(Answer(t))
  {
    AnswerTrims(t);
    AnswerIsNoReward(t);
  }

  predicate KeyIs(t: string, key: string) {
    HasPrefix(t, "{\"" + key) || HasPrefix(t, "{ \"" + key)
  }

  lemma ObjectKey(t: string, key: string)
    ensures JsonObject(Answer(t), key) <==> KeyIs(t, key)
  {
    AnswerBegins(t, "{\"" + key);
    AnswerBegins(t, "{ \"" + key);
    assert "OK " + ("{\"" + key) == "OK {\"" + key;
    assert "OK " + ("{ \"" + key) == "OK { \"" + key;
  }

  lemma NotBegun(t: string, open: char, p: string)
    requires t != "" && t[0] == open && |p| > 3 && p[3] != open
    ensures !HasPrefix(Answer(t), p) && Answer(t) != p
  {
    Differs(Answer(t), p, 3);
  }

  lemma SuffixEnds(s: string, x: string)
    requires HasSuffix(s, x) && x != ""
    ensures s != "" && s[|s| - 1] == x[|x| - 1]
  {
    assert s[|s| - |x|..][|x| - 1] == s[|s| - 1];
  }

  lemma NoGold(t: string)
    requires t != "" && t[|t| - 1] != 'D'
    ensures !HasSuffix(Answer(t), "GOLD")
  {
    if HasSuffix(Answer(t), "GOLD") {
      SuffixEnds(Answer(t), "GOLD");
    }
  }

  lemma ObjectIsNoList(t: string)
    requires Enclosed(t, '{', '}')
    ensures Answer(t) != "OK" && TrimSpace(TrimSuffix(Answer(t), "]")) != "OK ["
  {
    if HasSuffix(Answer(t), "]") {
      SuffixEnds(Answer(t), "]");
    }
    AnswerTrims(t);
  }

  /** None of the branches between the objects and the lists is for a bracket. */
  lemma BracketSkipsEvents(t: string, open: char)
    requires |t| >= 2 && t[0] == open && (open == '{' || open == '[') && t[|t| - 1] != 'D'
    ensures ParseEvents(Answer(t)) == ParseLast(Answer(t))
    ensures !HasPrefix(Answer(t), "OK room=") && Answer(t) != "OK battle ended" && !HasSuffix(Answer(t), "GOLD")
  {
    var s := Answer(t);
    NotBegun(t, open, "OK room=");
    NotBegun(t, open, "OK battle ended");
    NotBegun(t, open, "OK taken=");
    NotBegun(t, open, "OK dropped=");
    NotBegun(t, open, "OK group=NEWPT-");
    NotBegun(t, open, "OK group=PT-");
    NoGold(t);
    NoEvents(s);
  }

  lemma NoEvents(s: string)
    requires |s| > 0 && s[0] == 'O'
    ensures !HasPrefix(s, "EVT RESPAWN room=") && !HasPrefix(s, "EVT ROOM PRESENCE ENTER") && !HasPrefix(s, "EVT ROOM PRESENCE LEAVE")
    ensures !HasPrefix(s, "EVT STATS players=") && !HasPrefix(s, "EVT GROUP CHAT") && !HasPrefix(s, "EVT ROOM CHAT")
    ensures !HasPrefix(s, "EVT GLOBAL CHAT") && !HasPrefix(s, "EVT GROUP ")
  {
    Differs(s, "EVT RESPAWN room=", 0);
    Differs(s, "EVT ROOM PRESENCE ENTER", 0);
    Differs(s, "EVT ROOM PRESENCE LEAVE", 0);
    Differs(s, "EVT STATS players=", 0);
    Differs(s, "EVT GROUP CHAT", 0);
    Differs(s, "EVT ROOM CHAT", 0);
    Differs(s, "EVT GLOBAL CHAT", 0);
    Differs(s, "EVT GROUP ", 0);
  }

  lemma ObjectSkipsLists(t: string)
    requires Enclosed(t, '{', '}')
    ensures var s := Answer(t);
      && !HasPrefix(s, "OK [{") && !HasPrefix(s, "OK [ {") && !HasPrefix(s, "OK [\"item.") && !HasPrefix(s, "OK [ \"item.")
      && !HasPrefix(s, "OK [\"key_item.") && !HasPrefix(s, "OK [ \"key_item.") && HasPrefix(s, "OK ")
  {
    NotBegun(t, '{', "OK [{");
    NotBegun(t, '{', "OK [ {");
    NotBegun(t, '{', "OK [\"item.");
    NotBegun(t, '{', "OK [ \"item.");
    NotBegun(t, '{', "OK [\"key_item.");
    NotBegun(t, '{', "OK [ \"key_item.");
    Prefixed("OK ", t);
  }

  /** A JSON object is decoded if its first key is one of those the server's answers begin with,
      and shown as what an NPC says otherwise. */
  lemma ObjectsAreSorted(t: string)
    requires Enclosed(t, '{', '}')
    ensures ParseServerReply(Answer(t)) ==
            if KeyIs(t, "room\"") || KeyIs(t, "hp\"") || KeyIs(t, "name\"") || KeyIs(t, "attack") || KeyIs(t, "quest_id\"")
            then Json(t) else Dialogue(t)
  {
    AnswerParses(t);
    AnswerTrims(t);
    ObjectIsNoList(t);
    BracketSkipsEvents(t, '{');
    ObjectKey(t, "room\"");
    ObjectKey(t, "hp\"");
    ObjectKey(t, "name\"");
    ObjectKey(t, "attack");
    ObjectKey(t, "quest_id\"");
    ObjectSkipsLists(t);
  }

  lemma NoObjectKey(t: string, key: string)
    requires t != "" && t[0] != '{'
    ensures !KeyIs(t, key)
  {
    Differs(t, "{\"" + key, 0);
    Differs(t, "{ \"" + key, 0);
  }

  lemma ListIsNoObject(t: string)
    requires t != "" && t[0] != '{'
    ensures var s := Answer(t);
      && !JsonObject(s, "room\"") && !JsonObject(s, "hp\"") && !JsonObject(s, "name\"") && !JsonObject(s, "attack")
      && !JsonObject(s, "quest_id\"")
  {
    NoObjectKey(t, "room\"");
    NoObjectKey(t, "hp\"");
    NoObjectKey(t, "name\"");
    NoObjectKey(t, "attack");
    NoObjectKey(t, "quest_id\"");
    ObjectKey(t, "room\"");
    ObjectKey(t, "hp\"");
    ObjectKey(t, "name\"");
    ObjectKey(t, "attack");
    ObjectKey(t, "quest_id\"");
  }

  predicate ListOf(t: string, first: string) {
    HasPrefix(t, "[" + first) || HasPrefix(t, "[ " + first)
  }

  lemma ObjectList(t: string)
    ensures HasPrefix(Answer(t), "OK [{") || HasPrefix(Answer(t), "OK [ {") <==> ListOf(t, "{")
  {
    AnswerBegins(t, "[{");
    AnswerBegins(t, "[ {");
    assert "OK " + "[{" == "OK [{" && "OK " + "[ {" == "OK [ {" && "[" + "{" == "[{" && "[ " + "{" == "[ {";
  }

  lemma ItemList(t: string)
    ensures HasPrefix(Answer(t), "OK [\"item.") || HasPrefix(Answer(t), "OK [ \"item.") <==> ListOf(t, "\"item.")
  {
    AnswerBegins(t, "[\"item.");
    AnswerBegins(t, "[ \"item.");
    assert "OK " + "[\"item." == "OK [\"item." && "OK " + "[ \"item." == "OK [ \"item.";
    assert "[" + "\"item." == "[\"item." && "[ " + "\"item." == "[ \"item.";
  }

  lemma KeyItemList(t: string)
    ensures HasPrefix(Answer(t), "OK [\"key_item.") || HasPrefix(Answer(t), "OK [ \"key_item.") <==> ListOf(t, "\"key_item.")
  {
    AnswerBegins(t, "[\"key_item.");
    AnswerBegins(t, "[ \"key_item.");
    assert "OK " + "[\"key_item." == "OK [\"key_item." && "OK " + "[ \"key_item." == "OK [ \"key_item.";
    assert "[" + "\"key_item." == "[\"key_item." && "[ " + "\"key_item." == "[ \"key_item.";
  }

  /** Nothing but white space between the brackets. */
  predicate IsEmpty(t: string) {
    TrimSpace(TrimSuffix(t, "]")) == "["
  }

  lemma EmptyListExactly(t: string)
    requires Enclosed(t, '[', ']')
    ensures Answer(t) != "OK" && Answer(t) != "OK ["
    ensures TrimSpace(TrimSuffix(Answer(t), "]")) == "OK [" <==> IsEmpty(t)
  {
    var s, u := Answer(t), t[..|t| - 1];
    assert s[|s| - 1..] == "]" && t[|t| - 1..] == "]";
    assert s[..|s| - 1] == "OK " + u;
    TrimRightKeeps("OK [", u[1..]);
    TrimRightKeeps("[", u[1..]);
    assert "OK " + u == "OK [" + u[1..] && u == "[" + u[1..];
    assert TrimLeft("OK " + u) == "OK " + u && TrimLeft(u) == u;
    assert |"OK [" + TrimRight(u[1..])| == 4 + |TrimRight(u[1..])| && |"[" + TrimRight(u[1..])| == 1 + |TrimRight(u[1..])|;
  }

  lemma ListFirst(t: string)
    requires Enclosed(t, '[', ']')
    ensures ParseCases(Answer(t)) == if IsEmpty(t) then EmptyList else ParseLast(Answer(t))
  {
    EmptyListExactly(t);
    BracketSkipsEvents(t, '[');
    ListIsNoObject(t);
  }

  lemma ListLast(t: string)
    requires Enclosed(t, '[', ']')
    ensures ParseLast(Answer(t)) ==
            if ListOf(t, "{") || ListOf(t, "\"item.") || ListOf(t, "\"key_item.") then Json(t) else Dialogue(t)
  {
    AnswerTrims(t);
    ListIsNoObject(t);
    ObjectList(t);
    ItemList(t);
    KeyItemList(t);
    Prefixed("OK ", t);
  }

  /** An empty list is one; a list of objects, items or key items is decoded; and any other is shown
      as what an NPC says. */
  lemma ListsAreSorted(t: string)
    requires Enclosed(t, '[', ']')
    ensures ParseServerReply(Answer(t)) ==
            if IsEmpty(t) then EmptyList
            else if ListOf(t, "{") || ListOf(t, "\"item.") || ListOf(t, "\"key_item.") then Json(t) else Dialogue(t)
  {
    AnswerParses(t);
    ListFirst(t);
    ListLast(t);
  }

  /** The answer to FLEE. */
  lemma BattleEndIsRead()
    ensures ParseServerReply("OK battle ended") == BattleEnd
  {
    var t := "battle ended";
    assert Answer(t) == "OK battle ended";
    AnswerParses(t);
    BattleEndCase(Answer(t));
  }

  lemma BattleEndNoList(s: string)
    requires s == "OK battle ended"
    ensures TrimSpace(TrimSuffix(s, "]")) != "OK [" && s != "OK"
  {
    assert s[3] == 'b' && s[14] == 'd';
    if HasSuffix(s, "]") {
      SuffixEnds(s, "]");
    }
    TrimSpaceKeeps(s);
  }

  lemma BattleEndNoObject(s: string)
    requires s == "OK battle ended"
    ensures !HasPrefix(s, "OK room=") && !JsonObject(s, "room\"") && !JsonObject(s, "hp\"") && !JsonObject(s, "name\"") && !JsonObject(s, "attack")
  {
    Differs(s, "OK room=", 3);
    ListIsNoObject("battle ended");
    assert s == Answer("battle ended");
  }

  lemma BattleEndCase(s: string)
    requires s == "OK battle ended"
    ensures ParseCases(s) == BattleEnd
  {
    BattleEndNoList(s);
    BattleEndNoObject(s);
  }
}
