/** One line of a playbook: indentation, list markers, step titles and property values. */
module PlaybookLines {
  import opened Messages
  import opened Plans
  import opened Text

  // ---- Lines ----

  function Split(content: string): seq<string> {
    if content == "" then [""]
    else
      var rest := Split(content[1..]);
      if content[0] == '\n' then [""] + rest else [[content[0]] + rest[0]] + rest[1..]
  }

  function TrimBlanks(s: string): string {
    if s != "" && IsBlank(s[0]) then TrimBlanks(s[1..]) else s
  }

  function TrimBlanksRight(s: string): string {
    if s != "" && IsBlank(s[|s| - 1]) then TrimBlanksRight(s[..|s| - 1]) else s
  }

  predicate IsEmptyLine(line: string) {
    TrimBlanksRight(line) == ""
  }

  function MeasureIndent(line: string): (n: nat)
    ensures n <= |line|
  {
    TrimBlanksShortens(line);
    |line| - |TrimBlanks(line)|
  }

  lemma TrimBlanksShortens(s: string)
    ensures |TrimBlanks(s)| <= |s|
  {
  }

  // ---- List markers ----

  predicate IsDigit(c: char) {
    '0' <= c <= '9'
  }

  /** White space inside a list marker: the regular expression class, which has no vertical tab. */
  predicate IsGap(c: char) {
    c == ' ' || c == '\t' || c == '\n' || c == '\r' || c == '\U{000C}'
  }

  function DropDigits(s: string): string {
    if s != "" && IsDigit(s[0]) then DropDigits(s[1..]) else s
  }

  function DropGap(s: string): string {
    if s != "" && IsGap(s[0]) then DropGap(s[1..]) else s
  }

  datatype Item = Item(ordered: bool, text: string)

  /** A list item: a number and a dot, or one of -, +, *; then a gap; then the text. Empty text is no item. */
  function MatchListItem(s: string): Item {
    var r := DropDigits(s);
    if r != s && |r| >= 2 && r[0] == '.' && IsGap(r[1]) then Item(true, DropGap(r[1..]))
    else if |s| >= 2 && (s[0] == '-' || s[0] == '+' || s[0] == '*') && IsGap(s[1]) then Item(false, DropGap(s[1..]))
    else Item(false, "")
  }

  function ItemOf(line: string): Item {
    MatchListItem(TrimBlanks(line))
  }

  // ---- Step titles ----

  predicate IsNameChar(c: char) {
    'a' <= c <= 'z' || 'A' <= c <= 'Z' || IsDigit(c) || c == '_' || c == '-'
  }

  function NameRun(s: string): (n: nat)
    ensures n <= |s|
  {
    if s != "" && IsNameChar(s[0]) then 1 + NameRun(s[1..]) else 0
  }

  datatype Tag = Tag(name: string, length: nat)

  const TAG_OPEN := "(agent:"

  /** An agent tag at the very start of `s`. */
  function MatchTag(s: string): (r: Option<Tag>)
    ensures r.Some? ==> 0 < r.value.length <= |s|
  {
    if !(TAG_OPEN <= s) then None
    else
      DropGapShortens(s[|TAG_OPEN|..]);
      var r := DropGap(s[|TAG_OPEN|..]);
      var n := NameRun(r);
      if 0 < n < |r| && r[n] == ')' then Some(Tag(r[..n], |s| - |r| + n + 1)) else None
  }

  lemma DropGapShortens(s: string)
    ensures |DropGap(s)| <= |s|
  {
  }

  /** The name in the leftmost tag. */
  function FindTag(s: string): Option<string> {
    if s == "" then None
    else if MatchTag(s).Some? then Some(MatchTag(s).value.name)
    else FindTag(s[1..])
  }

  function RemoveTags(s: string): string {
    if s == "" then ""
    else if MatchTag(s).Some? then RemoveTags(s[MatchTag(s).value.length..])
    else [s[0]] + RemoveTags(s[1..])
  }

  function ColonAt(s: string): (n: nat)
    ensures n <= |s| && (n < |s| ==> s[n] == ':') && forall i :: 0 <= i < n ==> s[i] != ':'
  {
    if s == "" || s[0] == ':' then 0 else 1 + ColonAt(s[1..])
  }

  datatype Title = Title(agentType: string, description: string)

  function ParseStepTitle(text: string): Title {
    var t := TrimSpace(text);
    var tag, colon := FindTag(t), ColonAt(t);
    if tag.Some? then Title(tag.value, TrimSpace(RemoveTags(t)))
    else if 0 < colon < |t| then Title(TrimSpace(t[..colon]), TrimSpace(t[colon + 1..]))
    else Title("", t)
  }

  // ---- Properties ----

  predicate IsPropertyLine(text: string) {
    var lower := ToLower(TrimSpace(text));
    || HasPrefix(lower, "prompt:") || HasPrefix(lower, "output:")
    || HasPrefix(lower, "confirm:") || HasPrefix(lower, "description:")
  }

  function TrimQuotes(s: string): string {
    if |s| >= 2 && ((s[0] == '"' && s[|s| - 1] == '"') || (s[0] == '\'' && s[|s| - 1] == '\''))
    then s[1..|s| - 1] else s
  }

  function ParseProperty(text: string, step: Step): Step {
    var t := TrimSpace(text);
    var lower := ToLower(t);
    if HasPrefix(lower, "prompt:") then step.(prompt := TrimQuotes(TrimSpace(t[7..])))
    else if HasPrefix(lower, "output:") then step.(outputVar := TrimSpace(t[7..]))
    else if HasPrefix(lower, "confirm:") then
      var val := TrimSpace(t[8..]);
      step.(confirm := val == "true" || val == "yes" || val == "on")
    else if HasPrefix(lower, "description:") then step.(description := TrimSpace(t[12..]))
    else step
  }
}
