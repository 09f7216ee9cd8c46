/** What one line of any playbook means, canonical or not. */
module PlaybookMeaning {
  import opened Messages
  import opened Plans
  import opened Text
  import opened PlaybookLines
  import opened PlaybookParser
  import Templates

  // ---- Characters ----

  /** By code point: digits, capital and small letters, underscore, and in agent names the hyphen. */
  lemma CharacterClasses(c: char)
    ensures IsDigit(c) <==> 48 <= c as int <= 57
    ensures Templates.IsWord(c) <==>
      48 <= c as int <= 57 || 65 <= c as int <= 90 || 97 <= c as int <= 122 || c as int == 95
    ensures IsNameChar(c) <==> Templates.IsWord(c) || c as int == 45
  {
  }

  // ---- List items ----

  /** From position `i` on exactly `n` characters are of a class: the run is as long as it can be. */
  predicate GapRun(s: string, i: nat, n: nat) {
    && i + n <= |s| && (forall k :: i <= k < i + n ==> IsGap(s[k]))
    && (i + n < |s| ==> !IsGap(s[i + n]))
  }

  /** A number of `n` digits, a dot, and `g` characters of white space. */
  predicate OrderedMark(s: string, n: nat, g: nat) {
    && 0 < n < |s| && (forall k :: 0 <= k < n ==> IsDigit(s[k])) && s[n] == '.'
    && g > 0 && GapRun(s, n + 1, g)
  }

  /** A bullet and `g` characters of white space. */
  predicate Bullet(s: string, g: nat) {
    s != "" && (s[0] == '-' || s[0] == '+' || s[0] == '*') && g > 0 && GapRun(s, 1, g)
  }

  lemma {:induction false} DropGapMeaning(s: string) returns (g: nat)
    ensures GapRun(s, 0, g) && DropGap(s) == s[g..]
  {
    g := 0;
    if s != "" && IsGap(s[0]) {
      var rest := DropGapMeaning(s[1..]);
      g := rest + 1;
      assert forall k :: 1 <= k < |s| ==> s[k] == s[1..][k - 1];
      assert s[1..][rest..] == s[g..];
    }
  }

  lemma {:induction false} DropDigitsMeaning(s: string) returns (n: nat)
    ensures n <= |s| && DropDigits(s) == s[n..]
    ensures (forall k :: 0 <= k < n ==> IsDigit(s[k])) && (n < |s| ==> !IsDigit(s[n]))
  {
    n := 0;
    if s != "" && IsDigit(s[0]) {
      var rest := DropDigitsMeaning(s[1..]);
      n := rest + 1;
      assert forall k :: 1 <= k < |s| ==> s[k] == s[1..][k - 1];
      assert s[1..][rest..] == s[n..];
    }
  }

  lemma DropGapIs(s: string, i: nat, g: nat)
    requires GapRun(s, i, g)
    ensures DropGap(s[i..]) == s[i + g..]
  {
    var h := DropGapMeaning(s[i..]);
    assert GapRun(s[i..], 0, g);
    SameGaps(s[i..], g, h);
    assert s[i..][h..] == s[i + h..];
  }

  lemma SameDigits(s: string, m: nat, n: nat)
    requires m <= |s| && (forall k :: 0 <= k < m ==> IsDigit(s[k])) && (m < |s| ==> !IsDigit(s[m]))
    requires n < |s| && (forall k :: 0 <= k < n ==> IsDigit(s[k])) && !IsDigit(s[n])
    ensures m == n
  {
  }

  lemma SameGaps(s: string, g: nat, h: nat)
    requires GapRun(s, 0, g) && GapRun(s, 0, h)
    ensures g == h
  {
  }

  lemma OrderedIs(s: string, n: nat, g: nat)
    requires OrderedMark(s, n, g)
    ensures MatchListItem(s) == Item(true, s[n + 1 + g..])
  {
    var m := DropDigitsMeaning(s);
    assert m == n by { SameDigits(s, m, n); }
    assert s[m..][1..] == s[n + 1..] && s[m..][1] == s[n + 1];
    DropGapIs(s, n + 1, g);
  }

  lemma BulletIs(s: string, g: nat)
    requires Bullet(s, g)
    ensures MatchListItem(s) == Item(false, s[1 + g..])
  {
    assert DropDigits(s) == s;
    DropGapIs(s, 1, g);
  }

  lemma NoMarkNoItem(s: string)
    requires (forall n: nat, g: nat :: !OrderedMark(s, n, g)) && forall g: nat :: !Bullet(s, g)
    ensures MatchListItem(s) == Item(false, "")
  {
    var n := DropDigitsMeaning(s);
    if n > 0 && n + 1 < |s| && s[n] == '.' && IsGap(s[n + 1]) {
      var g := DropGapMeaning(s[n + 1..]);
      assert s[n + 1..][0] == s[n + 1];
      assert forall k :: n + 1 <= k < |s| ==> s[k] == s[n + 1..][k - n - 1];
      assert OrderedMark(s, n, g);
    } else if |s| >= 2 && (s[0] == '-' || s[0] == '+' || s[0] == '*') && IsGap(s[1]) {
      var g := DropGapMeaning(s[1..]);
      assert forall k :: 1 <= k < |s| ==> s[k] == s[1..][k - 1];
      assert Bullet(s, g);
    }
  }

  /** A line is an item exactly with a number and a dot, or a bullet, and white space behind it; then the text. */
  lemma ItemMeaning(s: string)
    ensures forall n: nat, g: nat :: OrderedMark(s, n, g) ==> MatchListItem(s) == Item(true, s[n + 1 + g..])
    ensures forall g: nat :: Bullet(s, g) ==> MatchListItem(s) == Item(false, s[1 + g..])
    ensures (forall n: nat, g: nat :: !OrderedMark(s, n, g)) && (forall g: nat :: !Bullet(s, g)) ==>
      MatchListItem(s) == Item(false, "")
  {
    hide MatchListItem;
    forall n: nat, g: nat | OrderedMark(s, n, g) ensures MatchListItem(s) == Item(true, s[n + 1 + g..]) {
      OrderedIs(s, n, g);
    }
    forall g: nat | Bullet(s, g) ensures MatchListItem(s) == Item(false, s[1 + g..]) {
      BulletIs(s, g);
    }
    if (forall n: nat, g: nat :: !OrderedMark(s, n, g)) && forall g: nat :: !Bullet(s, g) {
      NoMarkNoItem(s);
    }
  }

  // ---- Properties ----

  /** The text starts with the word and a colon, in any case. */
  predicate Says(text: string, word: string) {
    |text| > |word| && text[|word|] == ':' && ToLower(text[..|word|]) == word
  }

  lemma SaysPrefix(text: string, word: string)
    requires forall k :: 0 <= k < |word| ==> 'a' <= word[k] <= 'z'
    ensures Says(text, word) <==> HasPrefix(ToLower(text), word + ":")
  {
    var lower := ToLower(text);
    if |text| > |word| {
      assert ToLower(text[..|word|]) == lower[..|word|];
      assert lower[|word|] == ':' <==> text[|word|] == ':';
      if HasPrefix(lower, word + ":") {
        assert lower[..|word|] == word && lower[|word|] == (word + ":")[|word|];
      }
      if Says(text, word) {
        assert lower[..|word| + 1] == word + ":";
      }
    }
  }

  /** The value behind the colon, trimmed. */
  function ValueOf(text: string, word: string): string
    requires |text| > |word|
  {
    TrimSpace(text[|word| + 1..])
  }

  predicate Quoted(s: string, quote: char) {
    |s| >= 2 && s[0] == quote && s[|s| - 1] == quote
  }

  function Unquoted(s: string): string {
    if Quoted(s, '"') then s[1..|s| - 1] else if Quoted(s, '\'') then s[1..|s| - 1] else s
  }

  /**
   A property sets exactly its own field: a prompt without its quotes, an output, a confirmation if it says true, yes
   or on, a description. Anything else is no property and sets nothing.
   */
  lemma PropertyMeaning(text: string, step: Step)
    ensures var t, r := TrimSpace(text), ParseProperty(text, step);
      && (IsPropertyLine(text) <==>
            Says(t, "prompt") || Says(t, "output") || Says(t, "confirm") || Says(t, "description"))
      && (Says(t, "prompt") ==> r == step.(prompt := Unquoted(ValueOf(t, "prompt"))))
      && (Says(t, "output") ==> r == step.(outputVar := ValueOf(t, "output")))
      && (Says(t, "confirm") ==> r == step.(confirm := ValueOf(t, "confirm") in {"true", "yes", "on"}))
      && (Says(t, "description") ==> r == step.(description := ValueOf(t, "description")))
      && (!IsPropertyLine(text) ==> r == step)
  {
    hide TrimSpace, ToLower, Says;
    var t := TrimSpace(text);
    SaysPrefix(t, "prompt");
    SaysPrefix(t, "output");
    SaysPrefix(t, "confirm");
    SaysPrefix(t, "description");
    OneProperty(t);
  }

  lemma OneProperty(t: string)
    ensures Says(t, "prompt") ==> !Says(t, "output") && !Says(t, "confirm") && !Says(t, "description") && |t| > 6
    ensures Says(t, "output") ==> !Says(t, "confirm") && !Says(t, "description") && |t| > 6
    ensures Says(t, "confirm") ==> !Says(t, "description") && |t| > 7
    ensures Says(t, "description") ==> |t| > 11
  {
    hide ToLower, Lower;
    if Says(t, "prompt") {
      FirstLetter(t, "prompt", 'p');
    }
    if Says(t, "output") {
      FirstLetter(t, "output", 'o');
    }
    if Says(t, "confirm") {
      FirstLetter(t, "confirm", 'c');
    }
    if Says(t, "description") {
      FirstLetter(t, "description", 'd');
    }
  }

  lemma FirstLetter(t: string, word: string, c: char)
    requires word != "" && word[0] == c && Says(t, word)
    ensures t != "" && Lower(t[0]) == c
  {
    assert ToLower(t[..|word|])[0] == Lower(t[0]);
  }

  // ---- Children ----

  predicate IsItemLine(line: string) {
    !IsEmptyLine(line) && ItemOf(line).text != ""
  }

  /** The indentation of the children is that of the first item among them. */
  lemma {:induction false} ChildIndentMeaning(ls: seq<string>)
    ensures (forall k :: 0 <= k < |ls| ==> !IsItemLine(ls[k])) ==> ChildListIndent(ls).None?
    ensures forall k: nat :: k < |ls| && IsItemLine(ls[k]) && (forall j :: 0 <= j < k ==> !IsItemLine(ls[j])) ==>
      ChildListIndent(ls) == Some(MeasureIndent(ls[k]))
  {
    hide IsEmptyLine, ItemOf, MeasureIndent;
    if ls != [] {
      ChildIndentMeaning(ls[1..]);
      assert forall k :: 1 <= k < |ls| ==> ls[k] == ls[1..][k - 1];
      forall k: nat | 0 < k < |ls| && IsItemLine(ls[k]) && (forall j :: 0 <= j < k ==> !IsItemLine(ls[j]))
        ensures ChildListIndent(ls) == Some(MeasureIndent(ls[k]))
      {
        assert ls[1..][k - 1] == ls[k] && !IsItemLine(ls[0]);
        assert forall j :: 0 <= j < k - 1 ==> ls[1..][j] == ls[j + 1];
      }
    }
  }

  // ---- Titles ----

  /** At position `i` stands an agent tag: its opening, `g` characters of white space, the name, its closing. */
  predicate TagAt(s: string, i: nat, g: nat, name: string) {
    && i + 7 + g + |name| + 1 <= |s|
    && s[i..i + 7] == "(agent:" && GapRun(s, i + 7, g)
    && name != "" && (forall k :: 0 <= k < |name| ==> IsNameChar(name[k]))
    && s[i + 7 + g..i + 7 + g + |name|] == name && s[i + 7 + g + |name|] == ')'
  }

  lemma {:induction false} NameRunMeaning(s: string)
    ensures var n := NameRun(s);
      (forall k :: 0 <= k < n ==> IsNameChar(s[k])) && (n < |s| ==> !IsNameChar(s[n]))
  {
    if s != "" && IsNameChar(s[0]) {
      NameRunMeaning(s[1..]);
      assert forall k :: 1 <= k < |s| ==> s[k] == s[1..][k - 1];
    }
  }

  lemma SameNames(s: string, m: nat, n: nat)
    requires m <= |s| && (forall k :: 0 <= k < m ==> IsNameChar(s[k])) && (m < |s| ==> !IsNameChar(s[m]))
    requires n < |s| && (forall k :: 0 <= k < n ==> IsNameChar(s[k])) && !IsNameChar(s[n])
    ensures m == n
  {
  }

  /** A tag at the front is found as such, with its name and its whole length. */
  lemma TagIs(s: string, g: nat, name: string)
    requires TagAt(s, 0, g, name)
    ensures MatchTag(s) == Some(Tag(name, 7 + g + |name| + 1))
  {
    var r := s[7 + g..];
    assert s[0..7] == s[..7];
    DropGapIs(s, 7, g);
    assert r[..|name|] == name && r[|name|] == ')';
    NameRunMeaning(r);
    forall k | 0 <= k < |name| ensures IsNameChar(r[k]) {
      assert r[k] == r[..|name|][k];
    }
    SameNames(r, NameRun(r), |name|);
  }

  lemma FoundIsTag(s: string) returns (g: nat)
    ensures MatchTag(s).Some? ==>
      TagAt(s, 0, g, MatchTag(s).value.name) && MatchTag(s).value.length == 7 + g + |MatchTag(s).value.name| + 1
  {
    g := 0;
    if "(agent:" <= s {
      g := DropGapMeaning(s[7..]);
      var r := s[7 + g..];
      assert s[7..][g..] == r;
      NameRunMeaning(r);
      assert forall k :: 7 <= k < |s| ==> s[k] == s[7..][k - 7];
      assert GapRun(s, 7, g);
      assert s[0..7] == s[..7];
      var n := NameRun(r);
      if n < |r| {
        assert r[..n] == s[7 + g..7 + g + n] && r[n] == s[7 + g + n];
      }
    }
  }

  lemma AnyTagIs(s: string)
    ensures forall g: nat, name: string :: TagAt(s, 0, g, name) ==> MatchTag(s).Some?
  {
    hide TagAt, MatchTag;
    forall g: nat, name: string | TagAt(s, 0, g, name) ensures MatchTag(s).Some? {
      TagIs(s, g, name);
    }
  }

  predicate HasTagAt(s: string, i: nat) {
    i <= |s| && MatchTag(s[i..]).Some?
  }

  /** The leftmost tag names the agent. */
  lemma {:induction false} FindTagMeaning(s: string)
    ensures FindTag(s).None? <==> forall i: nat :: !HasTagAt(s, i)
    ensures forall i: nat :: HasTagAt(s, i) && (forall j: nat :: j < i ==> !HasTagAt(s, j)) ==>
      FindTag(s) == Some(MatchTag(s[i..]).value.name)
  {
    hide MatchTag;
    assert s[0..] == s;
    if s == "" {
      NoTagInNothing();
      forall i: nat ensures !HasTagAt(s, i) {
        assert i == 0 ==> s[i..] == "";
      }
    } else {
      FindTagMeaning(s[1..]);
      forall i: nat | i > 0 ensures HasTagAt(s, i) <==> HasTagAt(s[1..], i - 1) {
        if i <= |s| {
          assert s[i..] == s[1..][i - 1..];
        }
      }
      if MatchTag(s).Some? {
        assert HasTagAt(s, 0);
      } else if j: nat :| HasTagAt(s[1..], j) {
        assert HasTagAt(s, j + 1);
      }
      forall i: nat | HasTagAt(s, i) && (forall j: nat :: j < i ==> !HasTagAt(s, j))
        ensures FindTag(s) == Some(MatchTag(s[i..]).value.name)
      {
        if i > 0 {
          assert !HasTagAt(s, 0);
          assert forall j: nat :: j < i - 1 ==> (HasTagAt(s[1..], j) <==> HasTagAt(s, j + 1));
          assert s[i..] == s[1..][i - 1..];
        }
      }
    }
  }

  lemma NoTagInNothing()
    ensures MatchTag("").None?
  {
  }

  /** `t` is `s` without its tags, read from the left. */
  ghost predicate WithoutTags(s: string, t: string)
    decreases |s|
  {
    if s == "" then t == ""
    else if exists g: nat, name: string :: TagAt(s, 0, g, name) then
      exists g: nat, name: string :: TagAt(s, 0, g, name) && WithoutTags(s[7 + g + |name| + 1..], t)
    else t != "" && t[0] == s[0] && WithoutTags(s[1..], t[1..])
  }

  lemma {:induction false} RemoveTagsMeaning(s: string)
    ensures WithoutTags(s, RemoveTags(s))
    decreases |s|
  {
    hide MatchTag, TagAt;
    if s != "" {
      var g := FoundIsTag(s);
      if MatchTag(s).Some? {
        RemoveTagsMeaning(s[MatchTag(s).value.length..]);
      } else {
        RemoveTagsMeaning(s[1..]);
        assert ([s[0]] + RemoveTags(s[1..]))[1..] == RemoveTags(s[1..]);
        AnyTagIs(s);
      }
    }
  }

  /** Position `c` holds the first colon. */
  predicate FirstColon(s: string, c: nat) {
    c < |s| && s[c] == ':' && forall k :: 0 <= k < c ==> s[k] != ':'
  }

  /**
   A title with a tag names the agent there and is otherwise the description; without one, what stands before the
   first colon is the agent, unless that is nothing; else it is all description.
   */
  lemma TitleMeaning(text: string)
    ensures var t, r := TrimSpace(text), ParseStepTitle(text);
      && (FindTag(t).Some? ==> r == Title(FindTag(t).value, TrimSpace(RemoveTags(t))))
      && (FindTag(t).None? ==>
            && (forall c: nat :: FirstColon(t, c) && c > 0 ==> r == Title(TrimSpace(t[..c]), TrimSpace(t[c + 1..])))
            && (!(exists c: nat :: FirstColon(t, c) && c > 0) ==> r == Title("", t)))
  {
    hide TrimSpace, FindTag, RemoveTags;
    var t := TrimSpace(text);
    var colon := ColonAt(t);
    if colon < |t| {
      assert FirstColon(t, colon);
    }
    forall c: nat | FirstColon(t, c) ensures c == colon {
    }
  }
}
