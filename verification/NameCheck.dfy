/** Which names the server lets in, exactly. */
module NameCheck {
  import opened GoStrings
  import opened Wire

  /** The same word up to case. */
  ghost predicate SameWord(r: Runes, name: string, word: string) {
    |name| == |word| && forall i :: 0 <= i < |word| ==> r.fold(name[i]) == r.fold(word[i])
  }

  ghost predicate Begins(r: Runes, name: string, start: string) {
    |start| <= |name| && forall i :: 0 <= i < |start| ==> r.lower(name[i]) == start[i]
  }

  /** A word the protocol uses, or the start of an identifier or of a markup. */
  ghost predicate Reserved(r: Runes, name: string) {
    || SameWord(r, name, "OK") || SameWord(r, name, "ERR") || SameWord(r, name, "EVT") || SameWord(r, name, "ADMIN")
    || SameWord(r, name, "SERVER") || SameWord(r, name, "SYSTEM") || SameWord(r, name, "STAFF")
    || Begins(r, name, "<") || Begins(r, name, "{") || Begins(r, name, "[") || Begins(r, name, "(")
    || Begins(r, name, "npc.") || Begins(r, name, "item.") || Begins(r, name, "zone.") || Begins(r, name, "key_item.")
  }

  ghost predicate Printable(r: Runes, name: string) {
    forall i :: 0 <= i < |name| ==> r.isPrint(name[i]) && name[i] != ' '
  }

  lemma LowerBegins(r: Runes, name: string, start: string)
    ensures HasPrefix(ToLower(r, name), start) <==> Begins(r, name, start)
  {
    var l := ToLower(r, name);
    if |start| <= |name| {
      assert forall i :: 0 <= i < |start| ==> l[..|start|][i] == r.lower(name[i]);
    }
  }

  lemma SomeName(r: Runes, name: string)
    ensures (exists i :: 0 <= i < |FORBIDDEN_NAMES| && EqualFold(r, name, FORBIDDEN_NAMES[i])) <==>
            (|| SameWord(r, name, "OK") || SameWord(r, name, "ERR") || SameWord(r, name, "EVT") || SameWord(r, name, "ADMIN")
             || SameWord(r, name, "SERVER") || SameWord(r, name, "SYSTEM") || SameWord(r, name, "STAFF"))
  {
    forall word ensures EqualFold(r, name, word) <==> SameWord(r, name, word) {
    }
    var all := FORBIDDEN_NAMES;
    assert all[0] == "OK" && all[1] == "ERR" && all[2] == "EVT" && all[3] == "ADMIN";
    assert all[4] == "SERVER" && all[5] == "SYSTEM" && all[6] == "STAFF";
  }

  lemma SomePrefix(r: Runes, name: string)
    ensures (exists i :: 0 <= i < |FORBIDDEN_PREFIXES| && HasPrefix(ToLower(r, name), FORBIDDEN_PREFIXES[i])) <==>
            (|| Begins(r, name, "<") || Begins(r, name, "{") || Begins(r, name, "[") || Begins(r, name, "(")
             || Begins(r, name, "npc.") || Begins(r, name, "item.") || Begins(r, name, "zone.") || Begins(r, name, "key_item."))
  {
    forall start ensures HasPrefix(ToLower(r, name), start) <==> Begins(r, name, start) {
      LowerBegins(r, name, start);
    }
    var all := FORBIDDEN_PREFIXES;
    assert all[0] == "<" && all[1] == "{" && all[2] == "[" && all[3] == "(";
    assert all[4] == "npc." && all[5] == "item." && all[6] == "zone." && all[7] == "key_item.";
  }

  /** A name is let in, without the white space around it, if and only if it has 2 to 10 runes, all
      printable and none a space, and is not reserved; and any other is refused for the right reason. */
  lemma NamesLetIn(r: Runes, args: string)
    ensures var name, v := TrimSpace(args), CheckName(r, args);
      && (v.Accepted? <==> Printable(r, name) && !Reserved(r, name) && 2 <= |name| <= 10)
      && (v.Accepted? ==> v.name == name)
      && (v.TooLong? <==> Printable(r, name) && !Reserved(r, name) && |name| > 10)
      && (v.TooShort? <==> Printable(r, name) && !Reserved(r, name) && |name| < 2)
  {
    SomeName(r, TrimSpace(args));
    SomePrefix(r, TrimSpace(args));
  }
}
