// object.go: the filter that decides whether a captured message is shown,
// the shared message counter, the record written for a kept message, and the
// recursive renderer (printData) that turns a decoded JSON value into
// indented "key => value" lines.

module Object {
  import opened Util
  import opened Patterns

  /** A decoded JSON value as the agent sends it. A JSON object is a sequence
      of (key, value) pairs in the order the map is walked; JSON numbers are
      integral here (pids, offsets, sizes). */
  datatype Value =
    | Map(entries: seq<(string, Value)>)
    | Seq(items: seq<Value>)
    | Str(s: string)
    | Num(n: int)
    | Bool(b: bool)

  predicate IsScalar(v: Value) { v.Str? || v.Num? || v.Bool? }

  function BoolText(b: bool): string { if b then "true" else "false" }

  /** The %v text of a scalar; a JSON number arrives as a float64. */
  function ScalarText(v: Value): string
    requires IsScalar(v)
  {
    match v
    case Str(s) => s
    case Num(n) => FloatText(n)
    case Bool(b) => BoolText(b)
  }

  // ----- printData: the rendered text, as the lines it appends -----

  /** The lines printData(v, key, indent) appends, in order. Each ends in a
      newline (a scalar whose text holds a newline still counts as one). */
  function RenderLines(v: Value, key: string, indent: string): (lines: seq<string>)
    ensures IsScalar(v) ==> |lines| == 1
    ensures v.Seq? ==> |lines| >= 3 && lines[0] == indent + key + " => [\n" && lines[|lines| - 1] == indent + "]\n"
    ensures lines == [] ==> v.Map? && key == ""
    decreases v
  {
    match v
    case Map(es) =>
      (if key != "" then [indent + key + " => \n"] else []) + EntryLines(es, indent + "\t")
    case Seq(xs) =>
      [indent + key + " => [\n", indent + "[\n"] + ItemLines(xs, 0, indent + "\t") + [indent + "]\n"]
    case _ =>
      if key != "" then [indent + key + " => " + ScalarText(v) + "\n"]
      else [indent + " => " + ScalarText(v) + "\n"]
  }

  /** The entries of a map, each under its own key. */
  function EntryLines(es: seq<(string, Value)>, indent: string): seq<string>
    decreases es
  {
    if es == [] then []
    else
      var e := es[0];
      assert e.1 < e;
      RenderLines(e.1, e.0, indent) + EntryLines(es[1..], indent)
  }

  /** The items of a sequence, each under its decimal index, counting from `from`. */
  function ItemLines(xs: seq<Value>, from: nat, indent: string): seq<string>
    decreases xs
  {
    if xs == [] then []
    else RenderLines(xs[0], NatText(from), indent) + ItemLines(xs[1..], from + 1, indent)
  }

  function Concat(lines: seq<string>): string
  {
    if lines == [] then "" else lines[0] + Concat(lines[1..])
  }

  /** The text printData(v, key, indent, &message) appends to message. */
  function Render(v: Value, key: string, indent: string): (text: string)
    ensures text == "" || (|text| > |indent| && text[..|indent|] == indent && text[|text| - 1] == '\n')
    ensures text == "" ==> v.Map? && key == ""
  {
    LinesIndented(v, key, indent);
    ConcatIndented(RenderLines(v, key, indent), indent);
    Concat(RenderLines(v, key, indent))
  }

  lemma {:induction false} ConcatAppend(a: seq<string>, b: seq<string>)
    ensures Concat(a + b) == Concat(a) + Concat(b)
  {
    if a != [] {
      assert (a + b)[0] == a[0];
      assert (a + b)[1..] == a[1..] + b;
      ConcatAppend(a[1..], b);
    } else {
      assert a + b == b;
    }
  }

  lemma ConcatOne(line: string)
    ensures Concat([line]) == line
  {
    assert [line][1..] == [];
  }

  lemma {:induction false} EntryLinesSnoc(es: seq<(string, Value)>, e: (string, Value), indent: string)
    ensures EntryLines(es + [e], indent) == EntryLines(es, indent) + RenderLines(e.1, e.0, indent)
  {
    if es != [] {
      assert (es + [e])[1..] == es[1..] + [e];
      EntryLinesSnoc(es[1..], e, indent);
    }
  }

  /** Appending an item renders it under the next index. */
  lemma {:induction false} ItemLinesSnoc(xs: seq<Value>, x: Value, from: nat, indent: string)
    ensures ItemLines(xs + [x], from, indent)
         == ItemLines(xs, from, indent) + RenderLines(x, NatText(from + |xs|), indent)
  {
    if xs != [] {
      assert (xs + [x])[1..] == xs[1..] + [x];
      ItemLinesSnoc(xs[1..], x, from + 1, indent);
    }
  }

  /** The rendering of a map: its header (under a non-empty key only), then
      its entries one tab deeper. */
  lemma RenderMap(es: seq<(string, Value)>, key: string, indent: string)
    ensures Render(Map(es), key, indent)
         == (if key != "" then indent + key + " => \n" else "") + Concat(EntryLines(es, indent + "\t"))
  {
    var header: seq<string> := if key != "" then [indent + key + " => \n"] else [];
    ConcatAppend(header, EntryLines(es, indent + "\t"));
    if key != "" { ConcatOne(indent + key + " => \n"); }
  }

  /** The rendering of a sequence: "key => [", "[", the items one tab deeper,
      then "]". */
  lemma RenderSeq(xs: seq<Value>, key: string, indent: string)
    ensures Render(Seq(xs), key, indent)
         == (indent + key + " => [\n") + (indent + "[\n")
            + Concat(ItemLines(xs, 0, indent + "\t")) + (indent + "]\n")
  {
    var open := [indent + key + " => [\n", indent + "[\n"];
    var items := ItemLines(xs, 0, indent + "\t");
    ConcatAppend(open + items, [indent + "]\n"]);
    ConcatAppend(open, items);
    ConcatOne(indent + "]\n");
    assert open[1..] == [indent + "[\n"];
    ConcatOne(indent + "[\n");
  }

  lemma EntriesStep(es: seq<(string, Value)>, i: nat, indent: string)
    requires i < |es|
    ensures Concat(EntryLines(es[..i + 1], indent))
         == Concat(EntryLines(es[..i], indent)) + Render(es[i].1, es[i].0, indent)
  {
    EntryLinesSnoc(es[..i], es[i], indent);
    assert es[..i + 1] == es[..i] + [es[i]];
    ConcatAppend(EntryLines(es[..i], indent), RenderLines(es[i].1, es[i].0, indent));
  }

  lemma ItemsStep(xs: seq<Value>, i: nat, indent: string)
    requires i < |xs|
    ensures Concat(ItemLines(xs[..i + 1], 0, indent))
         == Concat(ItemLines(xs[..i], 0, indent)) + Render(xs[i], NatText(i), indent)
  {
    ItemLinesSnoc(xs[..i], xs[i], 0, indent);
    assert xs[..i + 1] == xs[..i] + [xs[i]];
    ConcatAppend(ItemLines(xs[..i], 0, indent), RenderLines(xs[i], NatText(i), indent));
  }

  /** printData: appends the rendering of v under key at indent to message.
      The existing message is kept as a prefix of the result. */
  method PrintValue(v: Value, key: string, indent: string, message: string) returns (out: string)
    ensures out == message + Render(v, key, indent)
    decreases v, 1
  {
    match v
    case Map(es) =>
      out := message;
      if key != "" {
        out := out + (indent + key + " => \n");
      }
      out := PrintEntries(v, es, indent + "\t", out);
      RenderMap(es, key, indent);
    case Seq(xs) =>
      out := message + (indent + key + " => [\n");
      out := out + (indent + "[\n");
      out := PrintItems(v, xs, indent + "\t", out);
      out := out + (indent + "]\n");
      RenderSeq(xs, key, indent);
    case _ =>
      if key != "" {
        out := message + (indent + key + " => " + ScalarText(v) + "\n");
      } else {
        out := message + (indent + " => " + ScalarText(v) + "\n");
      }
      ConcatOne(RenderLines(v, key, indent)[0]);
  }

  /** The loop of printData over the entries of the map `parent`. */
  method PrintEntries(ghost parent: Value, es: seq<(string, Value)>, indent: string, message: string)
    returns (out: string)
    requires parent == Map(es)
    ensures out == message + Concat(EntryLines(es, indent))
    decreases parent, 0
  {
    out := message;
    var i := 0;
    while i < |es|
      invariant 0 <= i <= |es|
      invariant out == message + Concat(EntryLines(es[..i], indent))
    {
      out := PrintValue(es[i].1, es[i].0, indent, out);
      EntriesStep(es, i, indent);
      i := i + 1;
    }
    assert es[..i] == es;
  }

  /** The loop of printData over the items of the sequence `parent`. */
  method PrintItems(ghost parent: Value, xs: seq<Value>, indent: string, message: string)
    returns (out: string)
    requires parent == Seq(xs)
    ensures out == message + Concat(ItemLines(xs, 0, indent))
    decreases parent, 0
  {
    out := message;
    var i := 0;
    while i < |xs|
      invariant 0 <= i <= |xs|
      invariant out == message + Concat(ItemLines(xs[..i], 0, indent))
    {
      out := PrintValue(xs[i], NatText(i), indent, out);
      ItemsStep(xs, i, indent);
      i := i + 1;
    }
    assert xs[..i] == xs;
  }

  // ----- Layout of the rendered text -----

  /** Every line starts with the indent and ends with a newline. */
  predicate Indented(lines: seq<string>, indent: string)
  {
    forall i :: 0 <= i < |lines| ==> indent < lines[i] && lines[i][|lines[i]| - 1] == '\n'
  }

  /** Joined indented lines start with the indent and end with a newline;
      only no lines join to nothing. */
  lemma {:induction false} ConcatIndented(lines: seq<string>, indent: string)
    requires Indented(lines, indent)
    ensures Concat(lines) == "" <==> lines == []
    ensures lines != [] ==> indent < Concat(lines) && Concat(lines)[|Concat(lines)| - 1] == '\n'
  {
    if lines != [] {
      var rest := lines[1..];
      assert forall i :: 0 <= i < |rest| ==> rest[i] == lines[i + 1];
      ConcatIndented(rest, indent);
      var t := Concat(lines);
      assert t == lines[0] + Concat(rest);
      assert t[..|lines[0]|] == lines[0];
      if rest == [] {
        assert t == lines[0];
      } else {
        assert t[|t| - 1] == Concat(rest)[|Concat(rest)| - 1];
      }
    }
  }

  lemma IndentedAppend(a: seq<string>, b: seq<string>, indent: string)
    requires Indented(a, indent) && Indented(b, indent)
    ensures Indented(a + b, indent)
  {
    forall i | 0 <= i < |a + b|
      ensures indent < (a + b)[i] && (a + b)[i][|(a + b)[i]| - 1] == '\n'
    {
      if i >= |a| { assert (a + b)[i] == b[i - |a|]; }
    }
  }

  lemma IndentedDeeper(lines: seq<string>, indent: string)
    requires Indented(lines, indent + "\t")
    ensures Indented(lines, indent)
  {
    forall i | 0 <= i < |lines| ensures indent < lines[i] {
      assert indent < indent + "\t";
    }
  }

  /** Every line printData appends starts with its indent. */
  lemma {:induction false} LinesIndented(v: Value, key: string, indent: string)
    ensures Indented(RenderLines(v, key, indent), indent)
    decreases v
  {
    match v
    case Map(es) =>
      EntriesIndented(es, indent + "\t");
      IndentedDeeper(EntryLines(es, indent + "\t"), indent);
      var header: seq<string> := if key != "" then [indent + key + " => \n"] else [];
      IndentedAppend(header, EntryLines(es, indent + "\t"), indent);
    case Seq(xs) =>
      ItemsIndented(xs, 0, indent + "\t");
      IndentedDeeper(ItemLines(xs, 0, indent + "\t"), indent);
      IndentedAppend([indent + key + " => [\n", indent + "[\n"], ItemLines(xs, 0, indent + "\t"), indent);
      IndentedAppend([indent + key + " => [\n", indent + "[\n"] + ItemLines(xs, 0, indent + "\t"),
                     [indent + "]\n"], indent);
    case _ =>
  }

  lemma {:induction false} EntriesIndented(es: seq<(string, Value)>, indent: string)
    ensures Indented(EntryLines(es, indent), indent)
    decreases es
  {
    if es != [] {
      var e := es[0];
      assert e.1 < e;
      LinesIndented(e.1, e.0, indent);
      EntriesIndented(es[1..], indent);
      IndentedAppend(RenderLines(e.1, e.0, indent), EntryLines(es[1..], indent), indent);
    }
  }

  lemma {:induction false} ItemsIndented(xs: seq<Value>, from: nat, indent: string)
    ensures Indented(ItemLines(xs, from, indent), indent)
    decreases xs
  {
    if xs != [] {
      LinesIndented(xs[0], NatText(from), indent);
      ItemsIndented(xs[1..], from + 1, indent);
      IndentedAppend(RenderLines(xs[0], NatText(from), indent), ItemLines(xs[1..], from + 1, indent), indent);
    }
  }

  /** A scalar is one line, "indent key => value"; with an empty key the two
      branches of printData give the same text. */
  lemma ScalarLine(v: Value, key: string, indent: string)
    requires IsScalar(v)
    ensures RenderLines(v, key, indent) == [indent + key + " => " + ScalarText(v) + "\n"]
  {
    if key == "" { assert indent + key == indent; }
  }

  /** A number renders as its float64 %v text. */
  lemma NumberLine(n: int, key: string, indent: string)
    ensures Render(Num(n), key, indent) == indent + key + " => " + FloatText(n) + "\n"
  {
    ScalarLine(Num(n), key, indent);
    ConcatOne(indent + key + " => " + FloatText(n) + "\n");
  }

  lemma LargeNumberScalar()
    ensures Render(Num(1234567), "x", "\t") == "\tx => 1.234567e+06\n"
  {
    NumberLine(1234567, "x", "\t");
    FloatTextExamples();
    assert "\t" + "x" + " => " + "1.234567e+06" + "\n" == "\tx => 1.234567e+06\n";
  }

  /** A number of a million or more renders in exponent form, as %v prints
      a float64. */
  lemma LargeNumberLine()
    ensures Render(Map([("x", Num(1234567))]), "", "") == "\tx => 1.234567e+06\n"
  {
    assert "" + "\t" == "\t";
    LargeNumberScalar();
    SingleEntry("x", Num(1234567), "\t");
    RenderMap([("x", Num(1234567))], "", "");
  }

  /** A map gets a header line only under a non-empty key; every entry line
      is indented one tab deeper. */
  lemma MapLayout(es: seq<(string, Value)>, key: string, indent: string)
    ensures var lines := RenderLines(Map(es), key, indent);
      var h := if key != "" then 1 else 0;
      h <= |lines| && (key != "" ==> lines[0] == indent + key + " => \n")
      && Indented(lines[h..], indent + "\t")
  {
    var lines := RenderLines(Map(es), key, indent);
    var h := if key != "" then 1 else 0;
    assert lines[h..] == EntryLines(es, indent + "\t");
    EntriesIndented(es, indent + "\t");
  }

  /** A sequence opens with "key => [" and "[", closes with "]", all at the
      parent's indent; the items between are one tab deeper. */
  lemma SeqLayout(xs: seq<Value>, key: string, indent: string)
    ensures var lines := RenderLines(Seq(xs), key, indent);
      3 <= |lines| && lines[0] == indent + key + " => [\n" && lines[1] == indent + "[\n"
      && lines[|lines| - 1] == indent + "]\n"
      && lines[2..|lines| - 1] == ItemLines(xs, 0, indent + "\t")
      && Indented(lines[2..|lines| - 1], indent + "\t")
  {
    ItemsIndented(xs, 0, indent + "\t");
  }

  lemma ExampleItems()
    ensures ItemLines([Num(1), Num(2)], 0, "\t\t\t") == ["\t\t\t0 => 1\n", "\t\t\t1 => 2\n"]
  {
    assert NatText(0) == "0" && NatText(1) == "1";
    assert ScalarText(Num(1)) == "1" && ScalarText(Num(2)) == "2";
    ScalarLine(Num(1), "0", "\t\t\t");
    ScalarLine(Num(2), "1", "\t\t\t");
    assert "\t\t\t" + "0" + " => " + "1" + "\n" == "\t\t\t0 => 1\n";
    assert "\t\t\t" + "1" + " => " + "2" + "\n" == "\t\t\t1 => 2\n";
    assert [Num(1), Num(2)][1..] == [Num(2)];
    assert [Num(2)][1..] == [];
  }

  /** A map of one entry: its header, then the entry one tab deeper. */
  lemma OneEntryLines(k: string, v: Value, key: string, indent: string, deeper: string)
    requires deeper == indent + "\t"
    ensures RenderLines(Map([(k, v)]), key, indent)
         == (if key != "" then [indent + key + " => \n"] else []) + RenderLines(v, k, deeper)
  {
    assert [(k, v)][1..] == [];
    assert EntryLines([(k, v)], deeper) == RenderLines(v, k, deeper) + [];
  }

  lemma SingleEntry(key: string, v: Value, indent: string)
    ensures Concat(EntryLines([(key, v)], indent)) == Render(v, key, indent)
  {
    var lines := RenderLines(v, key, indent);
    assert [(key, v)][1..] == [];
    assert EntryLines([(key, v)], indent) == lines + EntryLines([], indent);
    assert lines + [] == lines;
  }

  /** Rendering {"a": {"b": [1, 2]}} as the top-level dictionary: each key
      one tab deeper than its parent, the list items under their indexes. */
  lemma NestedExample()
    ensures RenderLines(Map([("a", Map([("b", Seq([Num(1), Num(2)]))]))]), "", "")
         == ["\ta => \n", "\t\tb => [\n", "\t\t[\n", "\t\t\t0 => 1\n", "\t\t\t1 => 2\n", "\t\t]\n"]
  {
    var inner := Seq([Num(1), Num(2)]);
    var mid := Map([("b", inner)]);
    OneEntryLines("a", mid, "", "", "\t");
    OneEntryLines("b", inner, "a", "\t", "\t\t");
    ExampleItems();
    assert "\t\t" + "\t" == "\t\t\t";
    assert "\t" + "a" + " => \n" == "\ta => \n";
    assert "\t\t" + "b" + " => [\n" == "\t\tb => [\n";
    assert "\t\t" + "[\n" == "\t\t[\n";
    assert "\t\t" + "]\n" == "\t\t]\n";
  }

  // ----- The filter -----

  /** data[key] for the top-level map of a message; a message that is not a
      map has no fields. Keys of a decoded JSON object are unique, so taking
      the first entry with the key loses nothing. */
  function Lookup(v: Value, key: string): (r: Option<Value>)
    ensures r.Some? ==> v.Map? && exists i :: 0 <= i < |v.entries| && v.entries[i] == (key, r.value)
    ensures r.None? && v.Map? ==> forall i :: 0 <= i < |v.entries| ==> v.entries[i].0 != key
  {
    if v.Map? then LookupEntry(v.entries, key) else None
  }

  function LookupEntry(es: seq<(string, Value)>, key: string): (r: Option<Value>)
    ensures r.Some? ==> exists i :: 0 <= i < |es| && es[i] == (key, r.value)
    ensures r.None? ==> forall i :: 0 <= i < |es| ==> es[i].0 != key
  {
    if es == [] then None
    else if es[0].0 == key then Some(es[0].1)
    else
      var r := LookupEntry(es[1..], key);
      assert r.Some? ==> es[1..][0..] == es[1..];
      r
  }

  /** data["connName"].(string): present only when it is a string. */
  function ConnName(v: Value): Option<string>
  {
    match Lookup(v, "connName")
    case Some(Str(s)) => Some(s)
    case _ => None
  }

  /** The pid used for filtering: the number under "pid", or 0. */
  function Pid(v: Value): int
  {
    match Lookup(v, "pid")
    case Some(Num(n)) => n
    case _ => 0
  }

  /** fmt.Sprintf("%f", pid) for an integral pid. */
  function PidText(pid: int): string
  {
    IntText(pid) + ".000000"
  }

  /** Some pattern of the list matches the text. */
  predicate AnyMatch(list: seq<Regexp>, text: string)
  {
    exists i :: 0 <= i < |list| && MatchString(list[i], text)
  }

  /** The drop decision of PrintData, branch for branch. */
  predicate Dropped(name: string, pid: int, whitelist: seq<Regexp>, blacklist: seq<Regexp>,
                    whitelistp: seq<Regexp>, blacklistp: seq<Regexp>)
    ensures AnyMatch(blacklist, name) ==> Dropped(name, pid, whitelist, blacklist, whitelistp, blacklistp)
    ensures Dropped(name, pid, whitelist, blacklist, whitelistp, blacklistp)
      ==> |whitelist| > 0 || |blacklist| > 0 || (pid > 0 && (|whitelistp| > 0 || |blacklistp| > 0))
  {
    if |whitelist| > 0 || |blacklist| > 0 then
      if |whitelist| > 0 && !AnyMatch(whitelist, name) then true
      else AnyMatch(blacklist, name)
    else if pid > 0 then
      if |whitelistp| > 0 && !AnyMatch(whitelistp, PidText(pid)) then true
      else AnyMatch(blacklistp, PidText(pid))
    else false
  }

  /** With a name list given, a message is dropped exactly when the whitelist
      is non-empty and misses the name, or the blacklist hits it; the pid
      lists play no part. */
  lemma NameListsDecide(name: string, pid: int, wl: seq<Regexp>, bl: seq<Regexp>,
                        wlp: seq<Regexp>, blp: seq<Regexp>)
    requires |wl| > 0 || |bl| > 0
    ensures Dropped(name, pid, wl, bl, wlp, blp)
        <==> (|wl| > 0 && !AnyMatch(wl, name)) || AnyMatch(bl, name)
  {
  }

  /** Without name lists, only a positive pid is filtered, by the pid lists. */
  lemma PidListsDecide(name: string, pid: int, wlp: seq<Regexp>, blp: seq<Regexp>)
    ensures Dropped(name, pid, [], [], wlp, blp)
        <==> pid > 0 && ((|wlp| > 0 && !AnyMatch(wlp, PidText(pid))) || AnyMatch(blp, PidText(pid)))
  {
  }

  /** connInList: some pattern matches the connection name. */
  method ConnInList(name: string, list: seq<Regexp>) returns (found: bool)
    ensures found <==> AnyMatch(list, name)
  {
    for i := 0 to |list|
      invariant forall j :: 0 <= j < i ==> !MatchString(list[j], name)
    {
      if MatchString(list[i], name) {
        return true;
      }
    }
    return false;
  }

  /** pidInList: some pattern matches the %f text of the pid. */
  method PidInList(pid: int, list: seq<Regexp>) returns (found: bool)
    ensures found <==> AnyMatch(list, PidText(pid))
  {
    var ps := PidText(pid);
    for i := 0 to |list|
      invariant forall j :: 0 <= j < i ==> !MatchString(list[j], ps)
    {
      if MatchString(list[i], ps) {
        return true;
      }
    }
    return false;
  }

  // ----- The record of a kept message -----

  /** The %s text of a field: strings as they are, Go's %!s(...) forms for
      the other kinds and for a missing field. */
  function Shown(v: Option<Value>): (text: string)
    ensures v.Some? && v.value.Str? ==> text == v.value.s
    ensures v.None? || v.value.Num? || v.value.Bool?
      ==> |text| > 5 && text[..4] == "%!s(" && text[|text| - 1] == ')'
  {
    match v
    case None => "%!s(<nil>)"
    case Some(x) => ShownValue(x)
  }

  function ShownValue(v: Value): string
    decreases v, 1
  {
    match v
    case Str(s) => s
    case Num(n) => "%!s(float64=" + FloatText(n) + ")"
    case Bool(b) => "%!s(bool=" + BoolText(b) + ")"
    case Map(es) => "map[" + ShownEntries(es) + "]"
    case Seq(xs) => "[" + ShownItems(xs) + "]"
  }

  function ShownEntries(es: seq<(string, Value)>): string
    decreases es
  {
    if es == [] then ""
    else
      var e := es[0];
      assert e.1 < e;
      e.0 + ":" + ShownValue(e.1) + (if |es| > 1 then " " else "") + ShownEntries(es[1..])
  }

  function ShownItems(xs: seq<Value>): string
    decreases xs
  {
    if xs == [] then ""
    else ShownValue(xs[0]) + (if |xs| > 1 then " " else "") + ShownItems(xs[1..])
  }

  /** The "Process: name[pid]" line, present only when "pid" is a number. */
  function ProcessLine(v: Value): (line: string)
    ensures line != "" <==> Lookup(v, "pid").Some? && Lookup(v, "pid").value.Num?
    ensures line != "" ==> |line| > 9 && line[..9] == "Process: " && line[|line| - 1] == '\n'
  {
    match Lookup(v, "pid")
    case Some(Num(n)) => "Process: " + Shown(Lookup(v, "procName")) + "[" + IntText(n) + "]\n"
    case _ => ""
  }

  /** The rendered "dictionary" field, or nothing when it is absent. */
  function Body(v: Value): string
  {
    match Lookup(v, "dictionary")
    case Some(d) => Render(d, "", "")
    case None => ""
  }

  const Separator: string := "\n" + Repeat('=', 80) + "\n"

  /** The record PrintData builds for message number id and hands to the
      logger. */
  function Record(id: nat, v: Value): (r: string)
    requires ConnName(v).Some?
    ensures |r| > |NatText(id)| + 8 && r[|NatText(id)|..|NatText(id)| + 8] == ") Name: "
    ensures AllDigits(r[..|NatText(id)|]) && ParseNat(r[..|NatText(id)|]) == id
  {
    var d := NatText(id);
    var r := d + ") Name: " + Fields(v);
    assert r[..|d|] == d;
    assert r[|d|..|d| + 8] == ") Name: ";
    ParseNatText(id);
    r
  }

  /** The record after its "n) Name: " opening. */
  function Fields(v: Value): (r: string)
    requires ConnName(v).Some?
    ensures |r| >= |Separator| && r[|r| - |Separator|..] == Separator
  {
    Shown(Lookup(v, "name")) + "\n"
    + "Connection Name: " + ConnName(v).value + "\n"
    + ProcessLine(v)
    + "Data:\n"
    + Body(v)
    + Separator
  }

  /** The part of a record after its name line: the connection name, the
      process line, the data heading, the rendered dictionary, the separator. */
  function Tail(v: Value): string
    requires ConnName(v).Some?
  {
    "Connection Name: " + ConnName(v).value + "\n" + ProcessLine(v) + "Data:\n" + Body(v) + Separator
  }

  lemma FieldsLayout(v: Value)
    requires ConnName(v).Some?
    ensures Fields(v) == (Shown(Lookup(v, "name")) + "\n") + Tail(v)
  {
    Associate(Shown(Lookup(v, "name")) + "\n", "Connection Name: ", ConnName(v).value, "\n",
              ProcessLine(v), "Data:\n", Body(v), Separator);
  }

  lemma Associate(x: string, a: string, b: string, c: string, d: string, e: string, f: string, g: string)
    ensures x + a + b + c + d + e + f + g == x + (a + b + c + d + e + f + g)
  {
  }

  lemma EndsWith(head: string, tail: string)
    ensures |head + tail| >= |tail| && (head + tail)[|head + tail| - |tail|..] == tail
  {
  }

  /** After the name line, a record holds, in order, the connection name,
      the process line, "Data:", the rendered dictionary and the separator. */
  lemma RecordCarriesData(id: nat, v: Value)
    requires ConnName(v).Some?
    ensures var r := Record(id, v);
      |r| >= |Tail(v)| && r[|r| - |Tail(v)|..] == Tail(v)
  {
    FieldsLayout(v);
    var head := NatText(id) + ") Name: " + (Shown(Lookup(v, "name")) + "\n");
    assert Record(id, v) == head + Tail(v);
    EndsWith(head, Tail(v));
  }

  /** Two texts that open with different digit strings followed by ')' differ. */
  lemma NumberedTextsDiffer(a: string, x: string, b: string, y: string)
    requires AllDigits(a) && AllDigits(b) && a != b
    ensures a + ")" + x != b + ")" + y
  {
    var r, s := a + ")" + x, b + ")" + y;
    if |a| < |b| {
      assert r[|a|] == ')' && s[|a|] == b[|a|];
    } else if |b| < |a| {
      assert s[|b|] == ')' && r[|b|] == a[|b|];
    } else {
      assert r[..|a|] == a && s[..|b|] == b;
    }
  }

  /** Records of different message numbers differ: each opens with its
      number followed by ')'. */
  lemma RecordsDistinct(m: nat, v: Value, n: nat, w: Value)
    requires ConnName(v).Some? && ConnName(w).Some?
    requires m != n
    ensures Record(m, v) != Record(n, w)
  {
    NatTextInjective(m, n);
    Regroup(NatText(m), Fields(v));
    Regroup(NatText(n), Fields(w));
    NumberedTextsDiffer(NatText(m), " Name: " + Fields(v), NatText(n), " Name: " + Fields(w));
  }

  lemma Regroup(p: string, f: string)
    ensures p + ") Name: " + f == p + ")" + (" Name: " + f)
  {
    assert ") Name: " == ")" + " Name: ";
  }

  /** The record opens with its number and ") Name: ", and ends with a
      newline, 80 '=' and a newline. */
  lemma RecordEndsWithSeparator(id: nat, v: Value)
    requires ConnName(v).Some?
    ensures var r := Record(id, v);
      |r| >= |NatText(id)| + 8 && r[..|NatText(id)| + 8] == NatText(id) + ") Name: "
    ensures var r := Record(id, v);
      |r| >= 82 && r[|r| - 82] == '\n' && r[|r| - 1] == '\n'
      && forall i :: |r| - 81 <= i < |r| - 1 ==> r[i] == '='
  {
    var r := Record(id, v);
    var head := NatText(id) + ") Name: ";
    assert r == head + Fields(v);
    assert r[..|head|] == head;
    var pre := r[..|r| - 82];
    assert r == pre + Separator;
  }

  // ----- The shared counter and PrintData -----

  /** The process-wide message counter of object.go. */
  class Counter {
    var c: nat

    constructor ()
      ensures c == 0
    {
      c := 0;
    }
  }

  /** PrintData: drops the message, or numbers it from the counter and
      returns its number and record. A message without a string "connName"
      makes the source's type assertion panic, so callers must supply one. */
  method PrintData(counter: Counter, value: Value,
                   whitelist: seq<Regexp>, blacklist: seq<Regexp>,
                   whitelistp: seq<Regexp>, blacklistp: seq<Regexp>)
    returns (kept: Option<(nat, string)>)
    requires ConnName(value).Some?
    modifies counter
    ensures Dropped(ConnName(value).value, Pid(value), whitelist, blacklist, whitelistp, blacklistp)
      ==> kept == None && counter.c == old(counter.c)
    ensures !Dropped(ConnName(value).value, Pid(value), whitelist, blacklist, whitelistp, blacklistp)
      ==> kept == Some((old(counter.c), Record(old(counter.c), value))) && counter.c == old(counter.c) + 1
  {
    var name := ConnName(value).value;
    var pid := Pid(value);

    if |whitelist| > 0 || |blacklist| > 0 {
      var hit := ConnInList(name, whitelist);
      if |whitelist| > 0 && !hit {
        return None;
      } else {
        var banned := ConnInList(name, blacklist);
        if banned {
          return None;
        }
      }
    } else {
      if pid > 0 {
        var hit := PidInList(pid, whitelistp);
        if |whitelistp| > 0 && !hit {
          return None;
        } else {
          var banned := PidInList(pid, blacklistp);
          if banned {
            return None;
          }
        }
      }
    }

    var msg := counter.c;
    counter.c := counter.c + 1;

    var message := "";
    match Lookup(value, "dictionary") {
      case Some(d) => message := PrintValue(d, "", "", message);
      case None =>
    }
    assert message == Body(value);
    // The strings.Builder steps of object.go:82-87; the postcondition proves
    // the result equal to Record(msg, value).
    var fields := Shown(Lookup(value, "name")) + "\n"
      + "Connection Name: " + name + "\n"
      + ProcessLine(value)
      + "Data:\n"
      + message
      + Separator;
    var record := NatText(msg) + ") Name: " + fields;
    return Some((msg, record));
  }
}
