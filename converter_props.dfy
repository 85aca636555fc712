/** What the flat dialogue converter promises: one line per entry, in order,
    each followed by a newline; `speaker "text"` or the text alone; an empty
    script for no entries; and exactly which inputs make it raise. */
module ConverterProps {
  import opened Strings
  import opened JsonValue
  import opened Converter

  /** An entry of the documented shape: a dict whose `speaker` and `text`,
      when present, are strings. */
  predicate WellShaped(e: Json)
  {
    && e.JDict?
    && ("speaker" in e.fields ==> e.fields["speaker"].JStr?)
    && ("text" in e.fields ==> e.fields["text"].JStr?)
  }

  /** A string field of a well-shaped entry, "" when it is missing. */
  function StrField(e: Json, key: string): string
    requires WellShaped(e) && (key == "speaker" || key == "text")
  {
    if key in e.fields then e.fields[key].s else ""
  }

  /** The script line of a well-shaped entry. */
  function ScriptLine(e: Json): string
    requires WellShaped(e)
  {
    var speaker := StrField(e, "speaker");
    var text := StrField(e, "text");
    if speaker != "" then speaker + " \"" + text + "\"" else text
  }

  /** Each line followed by a newline, one after the other. */
  function Terminated(ls: seq<string>): (r: string)
    ensures ls == [] <==> r == ""
  {
    if ls == [] then "" else ls[0] + "\n" + Terminated(ls[1..])
  }

  /** An entry whose appended value `"\n".join` refuses: a dict without a
      truthy speaker whose text is not a string. */
  predicate Unjoinable(e: Json)
    requires e.JDict?
  {
    !Truthy(GetOr(e, "speaker", JStr("")).value) && !GetOr(e, "text", JStr("")).value.JStr?
  }

  // ---------------------------------------------------------------------------
  // The output of well-shaped entries

  /** For well-shaped entries the script is each entry's line followed by a
      newline, in the order of the entries. */
  lemma ConvertWellShaped(show: Json -> string, data: Json, items: seq<Json>)
    requires Entries(data) == Ok(items)
    requires forall k :: 0 <= k < |items| ==> WellShaped(items[k])
    ensures JsonToRenpySpec(show, data)
            == Ok(Terminated(seq(|items|, k requires 0 <= k < |items| => ScriptLine(items[k]))))
  {
    var ls := seq(|items|, k requires 0 <= k < |items| => ScriptLine(items[k]));
    var js := seq(|items|, k requires 0 <= k < |items| => JStr(ScriptLine(items[k])));
    LinesWellShaped(show, items, |items|);
    assert JsonToRenpySpec(show, data) == Joined(js);
    StrsOfStrings(ls, js, 0);
    assert Joined(js) == Ok(Join(ls, "\n") + (if js != [] then "\n" else ""));
    if ls != [] {
      JoinTerminated(ls);
    } else {
      assert Join(ls, "\n") + "" == "";
    }
  }

  lemma {:induction false} LinesWellShaped(show: Json -> string, items: seq<Json>, n: nat)
    requires n <= |items|
    requires forall k :: 0 <= k < |items| ==> WellShaped(items[k])
    ensures LinesUpTo(show, items, n)
            == Ok(seq(n, k requires 0 <= k < n => JStr(ScriptLine(items[k]))))
  {
    if n > 0 {
      LinesWellShaped(show, items, n - 1);
      var e := items[n - 1];
      assert EntryLine(show, e) == Ok(JStr(ScriptLine(e)));
      assert seq(n, k requires 0 <= k < n => JStr(ScriptLine(items[k])))
             == seq(n - 1, k requires 0 <= k < n - 1 => JStr(ScriptLine(items[k]))) + [JStr(ScriptLine(e))];
    }
  }

  lemma {:induction false} StrsOfStrings(ls: seq<string>, js: seq<Json>, from: nat)
    requires |js| == |ls| && forall k :: 0 <= k < |ls| ==> js[k] == JStr(ls[k])
    ensures Strs(js, from) == Ok(ls)
    decreases |ls|
  {
    if ls != [] {
      StrsOfStrings(ls[1..], js[1..], from + 1);
      assert [ls[0]] + ls[1..] == ls;
    }
  }

  /** Joining by newlines and adding one more is ending every line with a
      newline. */
  lemma {:induction false} JoinTerminated(ls: seq<string>)
    requires ls != []
    ensures Join(ls, "\n") + "\n" == Terminated(ls)
    decreases |ls|
  {
    if |ls| > 1 {
      JoinTerminated(ls[1..]);
      assert Join(ls, "\n") + "\n" == ls[0] + "\n" + (Join(ls[1..], "\n") + "\n");
    }
  }

  /** A speaker gives the line `speaker "text"`. */
  lemma SpeakerLine(show: Json -> string, speaker: string, text: string)
    requires speaker != ""
    ensures JsonToRenpySpec(show, JDict(map["dialogues" := JList([JDict(map["speaker" := JStr(speaker), "text" := JStr(text)])])]))
            == Ok(speaker + " \"" + text + "\"" + "\n")
  {
    var e := JDict(map["speaker" := JStr(speaker), "text" := JStr(text)]);
    ConvertWellShaped(show, JDict(map["dialogues" := JList([e])]), [e]);
    assert seq(1, k requires 0 <= k < 1 => ScriptLine([e][k])) == [speaker + " \"" + text + "\""];
    assert Terminated([speaker + " \"" + text + "\""]) == speaker + " \"" + text + "\"" + "\n" + Terminated([]);
    assert speaker + " \"" + text + "\"" + "\n" + "" == speaker + " \"" + text + "\"" + "\n";
  }

  /** A missing or empty speaker gives the text alone. */
  lemma NarrationLine(show: Json -> string, fields: map<string, Json>, text: string)
    requires "speaker" !in fields || fields["speaker"] == JStr("")
    requires "text" in fields && fields["text"] == JStr(text)
    ensures JsonToRenpySpec(show, JDict(map["dialogues" := JList([JDict(fields)])])) == Ok(text + "\n")
  {
    var e := JDict(fields);
    ConvertWellShaped(show, JDict(map["dialogues" := JList([e])]), [e]);
    assert seq(1, k requires 0 <= k < 1 => ScriptLine([e][k])) == [text];
    assert Terminated([text]) == text + "\n" + Terminated([]);
    assert text + "\n" + "" == text + "\n";
  }

  /** The text is copied as it is, quotes included: nothing is escaped, so
      the line is exactly the speaker, the text, two quotes, a space and the
      newline long (an escaped `\"` would make it longer). */
  lemma TextVerbatim(show: Json -> string, speaker: string, text: string)
    requires speaker != ""
    ensures var out := JsonToRenpySpec(show, JDict(map["dialogues" := JList([JDict(map["speaker" := JStr(speaker), "text" := JStr(text)])])]));
            && out.Ok?
            && out.value[|speaker| + 2..|speaker| + 2 + |text|] == text
            && |out.value| == |speaker| + |text| + 4
  {
    SpeakerLine(show, speaker, text);
    var line := speaker + " \"" + text + "\"" + "\n";
    assert line[|speaker| + 2..|speaker| + 2 + |text|] == text;
  }

  // ---------------------------------------------------------------------------
  // Empty input and the final newline

  /** A missing or empty `dialogues` gives the empty script. */
  lemma NoDialogues(show: Json -> string, data: Json)
    requires data.JDict?
    requires || "dialogues" !in data.fields
             || data.fields["dialogues"] == JList([])
             || data.fields["dialogues"] == JStr("")
             || data.fields["dialogues"] == JDict(map[])
    ensures JsonToRenpySpec(show, data) == Ok("")
  {
    if "dialogues" in data.fields && data.fields["dialogues"] == JStr("") {
      assert Iterated(JStr("")).value == [];
    }
    assert Entries(data) == Ok([]);
    assert LinesUpTo(show, [], 0) == Ok([]);
    var ss := Strs([], 0).value;
    assert ss == [];
    assert Join(ss, "\n") + "" == "";
  }

  /** The script ends with a newline exactly when there is at least one
      entry. */
  lemma FinalNewline(show: Json -> string, data: Json)
    requires JsonToRenpySpec(show, data).Ok?
    ensures Entries(data).Ok?
    ensures EndsWith(JsonToRenpySpec(show, data).value, "\n") <==> Entries(data).value != []
  {
    var entries := Entries(data).value;
    var lines := LinesUpTo(show, entries, |entries|).value;
    var ss := Strs(lines, 0).value;
    var out := JsonToRenpySpec(show, data).value;
    assert out == Join(ss, "\n") + (if lines != [] then "\n" else "");
    if lines != [] {
      assert out[|out| - 1..] == "\n";
    }
  }

  // ---------------------------------------------------------------------------
  // Failures

  /** The lines of the first n entries exist exactly when those entries are
      all dicts, and the k-th is then what entry k appends. */
  lemma {:induction false} LinesOk(show: Json -> string, entries: seq<Json>, n: nat)
    requires n <= |entries|
    ensures LinesUpTo(show, entries, n).Ok? <==> forall k :: 0 <= k < n ==> entries[k].JDict?
    ensures LinesUpTo(show, entries, n).Ok? ==>
              forall k :: 0 <= k < n ==> LinesUpTo(show, entries, n).value[k] == EntryLine(show, entries[k]).value
  {
    if n > 0 {
      LinesOk(show, entries, n - 1);
    }
  }

  /** The first entry that is not a dict decides the failure. */
  lemma {:induction false} LinesFirstFailure(show: Json -> string, entries: seq<Json>, n: nat, k: nat)
    requires k < n <= |entries|
    requires !entries[k].JDict? && forall j :: 0 <= j < k ==> entries[j].JDict?
    ensures LinesUpTo(show, entries, n) == Err(EntryLine(show, entries[k]).failure)
  {
    if n == k + 1 {
      LinesOk(show, entries, k);
    } else {
      LinesFirstFailure(show, entries, n - 1, k);
    }
  }

  /** `"\n".join` succeeds exactly when every item is a string. */
  lemma {:induction false} StrsOk(lines: seq<Json>, from: nat)
    ensures Strs(lines, from).Ok? <==> forall k :: 0 <= k < |lines| ==> lines[k].JStr?
    decreases |lines|
  {
    if lines != [] {
      StrsOk(lines[1..], from + 1);
      assert forall k :: 1 <= k < |lines| ==> lines[k] == lines[1..][k - 1];
    }
  }

  /** The conversion raises exactly when `dialogues` cannot be read or
      iterated, when some entry is not a dict, or when some entry without a
      speaker has a text that is not a string. */
  lemma ConvertFails(show: Json -> string, data: Json)
    ensures JsonToRenpySpec(show, data).Err? <==>
              || Entries(data).Err?
              || (exists k :: 0 <= k < |Entries(data).value| && !Entries(data).value[k].JDict?)
              || (exists k :: 0 <= k < |Entries(data).value| && Entries(data).value[k].JDict?
                                && Unjoinable(Entries(data).value[k]))
  {
    if Entries(data).Ok? {
      var entries := Entries(data).value;
      LinesOk(show, entries, |entries|);
      var lines := LinesUpTo(show, entries, |entries|);
      if lines.Ok? {
        StrsOk(lines.value, 0);
        forall k | 0 <= k < |entries|
          ensures lines.value[k].JStr? <==> !Unjoinable(entries[k])
        {
          assert lines.value[k] == EntryLine(show, entries[k]).value;
        }
      }
    }
  }

  /** An entry that is not a dict, before any other, raises the
      AttributeError of its `.get`, whatever follows it. */
  lemma ConvertFirstBadEntry(show: Json -> string, data: Json, k: nat)
    requires Entries(data).Ok? && k < |Entries(data).value|
    requires !Entries(data).value[k].JDict?
    requires forall j :: 0 <= j < k ==> Entries(data).value[j].JDict?
    ensures JsonToRenpySpec(show, data)
            == Err(Crash("AttributeError: '" + TypeName(Entries(data).value[k]) + "' object has no attribute 'get'"))
  {
    var entries := Entries(data).value;
    LinesFirstFailure(show, entries, |entries|, k);
  }
}
