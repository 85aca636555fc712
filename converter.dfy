/** `json_to_renpy(data)` of the flat dialogue converter: every entry of
    `data["dialogues"]` becomes one line of Ren'Py script, `speaker "text"`
    when the entry has a speaker and the text alone otherwise, the lines
    joined by newlines with a final newline when there is at least one. */
module Converter {
  import opened Strings
  import opened JsonValue

  /** `str(v)` inside an f-string: a string is itself; the printed form of
      any other value is Python's own and is given as `show`. */
  function Shown(show: Json -> string, v: Json): (r: string)
    ensures v.JStr? ==> r == v.s
  {
    if v.JStr? then v.s else show(v)
  }

  /** The entries `for entry in dialogues` visits. Iterating a string yields
      its characters and iterating a dict its keys, all strings, on which
      the `.get` of the first entry fails; a non-empty dict is therefore
      that failure at once. Anything else is not iterable. */
  function Iterated(v: Json): (r: Result<seq<Json>>)
    ensures v.JList? ==> r == Ok(v.items)
  {
    match v
    case JList(items) => Ok(items)
    case JStr(s) => Ok(seq(|s|, k requires 0 <= k < |s| => JStr([s[k]])))
    case JDict(m) =>
      if m == map[] then Ok([]) else Err(Crash("AttributeError: 'str' object has no attribute 'get'"))
    case _ => Err(Crash("TypeError: '" + TypeName(v) + "' object is not iterable"))
  }

  /** `data.get("dialogues", [])`, iterated. */
  function Entries(data: Json): Result<seq<Json>>
  {
    match GetOr(data, "dialogues", JList([]))
    case Err(f) => Err(f)
    case Ok(d) => Iterated(d)
  }

  /** The value appended to `lines` for one entry: the formatted string when
      the speaker is truthy, otherwise the text value itself (which need not
      be a string). Both `.get`s fail on anything but a dict. */
  function EntryLine(show: Json -> string, entry: Json): (r: Result<Json>)
    ensures r.Ok? <==> entry.JDict?
  {
    match GetOr(entry, "speaker", JStr(""))
    case Err(f) => Err(f)
    case Ok(speaker) =>
      var text := GetOr(entry, "text", JStr("")).value;
      if Truthy(speaker) then Ok(JStr(Shown(show, speaker) + " \"" + Shown(show, text) + "\""))
      else Ok(text)
  }

  /** `lines` after the first n entries, or the failure of the first entry
      that fails. */
  function LinesUpTo(show: Json -> string, entries: seq<Json>, n: nat): (r: Result<seq<Json>>)
    requires n <= |entries|
    ensures r.Ok? ==> |r.value| == n
  {
    if n == 0 then Ok([])
    else match LinesUpTo(show, entries, n - 1)
      case Err(f) => Err(f)
      case Ok(lines) =>
        match EntryLine(show, entries[n - 1])
        case Err(f) => Err(f)
        case Ok(line) => Ok(lines + [line])
  }

  /** The strings `"\n".join` reads from `lines[from..]`: a TypeError naming
      the index of the first item that is not a string. */
  function Strs(lines: seq<Json>, from: nat): (r: Result<seq<string>>)
    ensures r.Ok? ==> |r.value| == |lines|
    decreases |lines|
  {
    if lines == [] then Ok([])
    else if !lines[0].JStr? then
      Err(Crash("TypeError: sequence item " + IntToString(from) + ": expected str instance, "
                + TypeName(lines[0]) + " found"))
    else match Strs(lines[1..], from + 1)
      case Err(f) => Err(f)
      case Ok(rest) => Ok([lines[0].s] + rest)
  }

  /** `"\n".join(lines) + ("\n" if lines else "")` */
  function Joined(lines: seq<Json>): Result<string>
  {
    match Strs(lines, 0)
    case Err(f) => Err(f)
    case Ok(ss) => Ok(Join(ss, "\n") + (if lines != [] then "\n" else ""))
  }

  /** `json_to_renpy(data)` */
  function JsonToRenpySpec(show: Json -> string, data: Json): Result<string>
  {
    match Entries(data)
    case Err(f) => Err(f)
    case Ok(entries) =>
      match LinesUpTo(show, entries, |entries|)
      case Err(f) => Err(f)
      case Ok(lines) => Joined(lines)
  }

  /** `json_to_renpy` with its loop: each entry's line is appended to
      `lines`, which are joined at the end. */
  method JsonToRenpy(show: Json -> string, data: Json) returns (r: Result<string>)
    ensures r == JsonToRenpySpec(show, data)
  {
    var dialogues := Entries(data);
    if dialogues.Err? {
      return Err(dialogues.failure);
    }
    var entries := dialogues.value;
    var lines: seq<Json> := [];
    for i := 0 to |entries|
      invariant LinesUpTo(show, entries, i) == Ok(lines)
    {
      var line := EntryLine(show, entries[i]);
      if line.Err? {
        LinesFailStay(show, entries, i + 1, |entries|);
        return Err(line.failure);
      }
      lines := lines + [line.value];
    }
    r := Joined(lines);
  }

  /** Once an entry fails, the lines of every longer prefix fail the same
      way. */
  lemma {:induction false} LinesFailStay(show: Json -> string, entries: seq<Json>, n: nat, m: nat)
    requires n <= m <= |entries| && LinesUpTo(show, entries, n).Err?
    ensures LinesUpTo(show, entries, m) == LinesUpTo(show, entries, n)
    decreases m - n
  {
    if n < m {
      LinesFailStay(show, entries, n + 1, m);
    }
  }
}
