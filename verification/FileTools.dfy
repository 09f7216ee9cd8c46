/** The file tools: what was last read of each file guards writing and editing it. */
module FileTools {
  import opened Messages

  /** A file, and equally what the tracker records of one. */
  datatype File = File(content: string, mtime: int)

  /** Files on disk by cleaned path, and recorded reads by the path they were recorded under. */
  datatype State = State(files: map<string, File>, states: map<string, File>)

  /** How writing to disk goes: a failed write may still have replaced the file. */
  datatype Io = Written(mtime: int) | Failed(left: Option<File>)

  datatype Error =
    | BadInput
    | NotFound
    | NotRead
    | Stale
    | Identical
    | EmptyOld
    | NoMatch
    | Ambiguous(count: nat)
    | IoFailed

  datatype Result = Done | Refused(error: Error)

  datatype Op =
    | Read(path: string)
    | Write(path: string, content: string, dirMade: bool, io: Io)
    | Edit(path: string, oldStr: string, newStr: string, replaceAll: bool, io: Io)
    | Outside(path: string, file: Option<File>)

  // ---- Searching and replacing ----

  /** How often `sub` occurs in `s` without overlap. */
  function Count(s: string, sub: string): nat
    requires sub != ""
  {
    if |s| < |sub| then 0
    else if sub <= s then 1 + Count(s[|sub|..], sub)
    else Count(s[1..], sub)
  }

  /** Replace the first `n` occurrences. */
  function Replace(s: string, sub: string, repl: string, n: nat): string
    requires sub != ""
  {
    if n == 0 || |s| < |sub| then s
    else if sub <= s then repl + Replace(s[|sub|..], sub, repl, n - 1)
    else [s[0]] + Replace(s[1..], sub, repl, n)
  }

  function NormalizeChar(c: char): char {
    if c == '\U{2018}' || c == '\U{2019}' then '\''
    else if c == '\U{201C}' || c == '\U{201D}' then '"'
    else c
  }

  function NormalizeQuotes(s: string): string {
    seq(|s|, i requires 0 <= i < |s| => NormalizeChar(s[i]))
  }

  predicate EndsLine(s: string) {
    s != "" && s[|s| - 1] == '\n'
  }

  function KeepNewline(original: string, s: string): string {
    if EndsLine(original) && !EndsLine(s) then s + "\n" else s
  }

  datatype Edited = NewContent(text: string) | Cannot(error: Error)

  function ReplaceIn(content: string, oldStr: string, newStr: string, replaceAll: bool): Edited
    requires oldStr != ""
  {
    var found := Count(content, oldStr);
    if found == 0 then Cannot(NoMatch)
    else if !replaceAll && found > 1 then Cannot(Ambiguous(found))
    else NewContent(Replace(content, oldStr, newStr, if replaceAll then found else 1))
  }

  /** The new text of a file, from its text and the request: an exact match first, then one up to quote style. */
  function EditText(content: string, oldStr: string, newStr: string, replaceAll: bool): Edited {
    if oldStr == "" then (if content != "" then Cannot(EmptyOld) else NewContent(newStr))
    else
      var r :=
        if Count(content, oldStr) > 0 then ReplaceIn(content, oldStr, newStr, replaceAll)
        else ReplaceIn(NormalizeQuotes(content), NormalizeQuotes(oldStr), NormalizeQuotes(newStr), replaceAll);
      if r.NewContent? then NewContent(KeepNewline(content, r.text)) else r
  }

  // ---- The three tools ----

  function PutFile(files: map<string, File>, path: string, file: Option<File>): map<string, File> {
    if file.None? then files - {path} else files[path := file.value]
  }

  datatype Answer = Answer(state: State, result: Result)

  function ReadFile(clean: string -> string, s: State, path: string): Answer {
    if path == "" then Answer(s, Refused(BadInput))
    else if clean(path) !in s.files then Answer(s, Refused(NotFound))
    else Answer(s.(states := s.states[path := s.files[clean(path)]]), Done)
  }

  /** Write `content` to `p` and record it. */
  function Store(s: State, p: string, content: string, io: Io): Answer {
    match io
    case Written(mtime) =>
      var f := File(content, mtime);
      Answer(State(s.files[p := f], s.states[p := f]), Done)
    case Failed(left) => Answer(s.(files := PutFile(s.files, p, left)), Refused(IoFailed))
  }

  function Guard(s: State, p: string): Option<Error>
    requires p in s.files
  {
    if p !in s.states then Some(NotRead)
    else if s.states[p].mtime != s.files[p].mtime then Some(Stale)
    else None
  }

  function WriteFile(clean: string -> string, s: State, path: string, content: string, dirMade: bool, io: Io): Answer {
    var p := clean(path);
    if path == "" then Answer(s, Refused(BadInput))
    else if p in s.files && Guard(s, p).Some? then Answer(s, Refused(Guard(s, p).value))
    else if !dirMade then Answer(s, Refused(IoFailed))
    else Store(s, p, content, io)
  }

  function EditFile(clean: string -> string, s: State, path: string, oldStr: string, newStr: string, replaceAll: bool,
                    io: Io):
    Answer
  {
    var p := clean(path);
    if path == "" then Answer(s, Refused(BadInput))
    else if oldStr == newStr then Answer(s, Refused(Identical))
    else if p !in s.files then Answer(s, Refused(NotFound))
    else if Guard(s, p).Some? then Answer(s, Refused(Guard(s, p).value))
    else
      match EditText(s.files[p].content, oldStr, newStr, replaceAll)
      case Cannot(error) => Answer(s, Refused(error))
      case NewContent(text) => Store(s, p, text, io)
  }

  function Step(clean: string -> string, s: State, op: Op): Answer {
    match op
    case Read(path) => ReadFile(clean, s, path)
    case Write(path, content, dirMade, io) => WriteFile(clean, s, path, content, dirMade, io)
    case Edit(path, oldStr, newStr, replaceAll, io) => EditFile(clean, s, path, oldStr, newStr, replaceAll, io)
    case Outside(path, file) => Answer(s.(files := PutFile(s.files, path, file)), Done)
  }

  // ---- The objects ----

  class FileStateTracker {
    var states: map<string, File>

    constructor ()
      ensures states == map[]
    {
      states := map[];
    }

    method RecordRead(path: string, content: string, mtime: int)
      modifies this
      ensures states == old(states)[path := File(content, mtime)]
    {
      states := states[path := File(content, mtime)];
    }

    function GetState(path: string): (r: Option<File>)
      reads this
      ensures r.Some? <==> path in states
      ensures r.Some? ==> r.value == states[path]
    {
      if path in states then Some(states[path]) else None
    }

    predicate WasReadSince(path: string, currentMtime: int)
      reads this
    {
      path in states && states[path].mtime == currentMtime
    }

    method Remove(path: string)
      modifies this
      ensures states == old(states) - {path}
    {
      states := states - {path};
    }
  }

  class Disk {
    var files: map<string, File>

    method Put(path: string, content: string, io: Io) returns (ok: bool)
      modifies this
      ensures ok == io.Written?
      ensures files == match io
                       case Written(mtime) => old(files)[path := File(content, mtime)]
                       case Failed(left) => PutFile(old(files), path, left)
    {
      match io
      case Written(mtime) =>
        files := files[path := File(content, mtime)];
        ok := true;
      case Failed(left) =>
        files := PutFile(files, path, left);
        ok := false;
    }
  }

  class Tools {
    const tracker: FileStateTracker
    const disk: Disk
    const clean: string -> string

    constructor (tracker: FileStateTracker, disk: Disk, clean: string -> string)
      ensures this.tracker == tracker && this.disk == disk && this.clean == clean
    {
      this.tracker := tracker;
      this.disk := disk;
      this.clean := clean;
    }

    ghost function View(): State
      reads tracker, disk
    {
      State(disk.files, tracker.states)
    }

    method FileRead(path: string) returns (r: Result)
      modifies tracker
      ensures Answer(View(), r) == Step(clean, old(View()), Read(path))
    {
      if path == "" {
        return Refused(BadInput);
      }
      if clean(path) !in disk.files {
        return Refused(NotFound);
      }
      var data := disk.files[clean(path)];
      tracker.RecordRead(path, data.content, data.mtime);
      return Done;
    }

    method FileWrite(file: string, content: string, dirMade: bool, io: Io) returns (r: Result)
      modifies tracker, disk
      ensures Answer(View(), r) == Step(clean, old(View()), Write(file, content, dirMade, io))
    {
      if file == "" {
        return Refused(BadInput);
      }
      var path := clean(file);
      if path in disk.files {
        if tracker.GetState(path).None? {
          return Refused(NotRead);
        }
        if !tracker.WasReadSince(path, disk.files[path].mtime) {
          return Refused(Stale);
        }
      }
      if !dirMade {
        return Refused(IoFailed);
      }
      var ok := disk.Put(path, content, io);
      if !ok {
        return Refused(IoFailed);
      }
      tracker.RecordRead(path, content, disk.files[path].mtime);
      return Done;
    }

    method FileEdit(file: string, oldStr: string, newString: string, replaceAll: bool, io: Io) returns (r: Result)
      modifies tracker, disk
      ensures Answer(View(), r) == Step(clean, old(View()), Edit(file, oldStr, newString, replaceAll, io))
    {
      hide Count, Replace, NormalizeQuotes;
      if file == "" {
        return Refused(BadInput);
      }
      var newStr := newString;
      if oldStr == newStr {
        return Refused(Identical);
      }
      var path := clean(file);
      if path !in disk.files {
        return Refused(NotFound);
      }
      var data := disk.files[path].content;
      if tracker.GetState(path).None? {
        return Refused(NotRead);
      }
      if !tracker.WasReadSince(path, disk.files[path].mtime) {
        return Refused(Stale);
      }
      if oldStr == "" && |data| > 0 {
        return Refused(EmptyOld);
      }
      var newContent := newStr;
      if oldStr != "" {
        var content, actualOldStr := data, oldStr;
        var found := Count(content, oldStr);
        NormalizeKeepsLength(oldStr);
        if found == 0 {
          found := Count(NormalizeQuotes(content), NormalizeQuotes(oldStr));
          if found > 0 {
            content, actualOldStr, newStr := NormalizeQuotes(content), NormalizeQuotes(oldStr), NormalizeQuotes(newStr);
          }
        }
        if found == 0 {
          return Refused(NoMatch);
        }
        if !replaceAll && found > 1 {
          return Refused(Ambiguous(found));
        }
        newContent := Replace(content, actualOldStr, newStr, if replaceAll then found else 1);
        if EndsLine(data) && !EndsLine(newContent) {
          newContent := newContent + "\n";
        }
      }
      var ok := disk.Put(path, newContent, io);
      if !ok {
        return Refused(IoFailed);
      }
      tracker.RecordRead(path, newContent, disk.files[path].mtime);
      return Done;
    }
  }

  lemma NormalizeKeepsLength(s: string)
    ensures |NormalizeQuotes(s)| == |s|
  {
  }
}
