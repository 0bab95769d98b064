/** Rows of fields: where the substring search for a field name can and cannot match. */
module JournalRows {
  import opened JournalText

  predicate OccursAt(line: string, key: string, i: nat) {
    i + |key| <= |line| && line[i..i + |key|] == key
  }

  /** std::string_view::find: the first occurrence at `i` or later. */
  function FindFrom(line: string, key: string, i: nat): (r: Option<nat>)
    ensures r.Some? ==>
              i <= r.value && OccursAt(line, key, r.value) && forall k :: i <= k < r.value ==> !OccursAt(line, key, k)
    ensures r.None? ==> forall k :: i <= k ==> !OccursAt(line, key, k)
    decreases |line| - i
  {
    if i + |key| > |line| then None
    else if line[i..i + |key|] == key then Some(i)
    else FindFrom(line, key, i + 1)
  }

  function Find(line: string, key: string): Option<nat> {
    FindFrom(line, key, 0)
  }

  /** The text that follows the first occurrence of the key. */
  function After(line: string, key: string): Option<string> {
    var at := Find(line, key);
    if at == None then None else Some(line[at.value + |key|..])
  }

  /** The name of a field with its quotes and colon: what the parser searches for. */
  function KeyText(name: string): string {
    "\"" + name + "\":"
  }

  function Segmented(sep: char, key: string, value: string): string {
    [sep] + key + value
  }

  function Segment(sep: char, name: string, value: string): string {
    Segmented(sep, KeyText(name), value)
  }

  datatype Field = Field(name: string, value: string)

  function Segments(fs: seq<Field>): string {
    if fs == [] then ""
    else
      var last := |fs| - 1;
      Segments(fs[..last]) + Segment(if last == 0 then '{' else ',', fs[last].name, fs[last].value)
  }

  function Row(fs: seq<Field>): string {
    Segments(fs) + "}"
  }

  predicate IsLetter(c: char) {
    'a' <= c <= 'z' || 'A' <= c <= 'Z'
  }

  predicate IsName(s: string) {
    s != "" && forall i :: 0 <= i < |s| ==> IsLetter(s[i])
  }

  predicate IsPlain(v: string) {
    '"' !in v
  }

  ghost predicate IsValue(v: string) {
    IsPlain(v) || exists s :: v == Quoted(s)
  }

  predicate EndsValue(rest: string) {
    rest != "" && (rest[0] == ',' || rest[0] == '}')
  }

  /** `n` letters between the character at `i` and a closing quote and colon. */
  predicate NameAt(line: string, i: nat, n: nat) {
    && i + n + 2 < |line|
    && (forall k :: i < k <= i + n ==> IsLetter(line[k]))
    && line[i + n + 1] == '"' && line[i + n + 2] == ':'
  }

  predicate NamedAt(line: string, name: string, i: nat) {
    NameAt(line, i, |name|) && line[i] == '"' && line[i + 1..i + 1 + |name|] == name
  }

  lemma MatchShape(line: string, name: string, i: nat)
    requires IsName(name)
    ensures OccursAt(line, KeyText(name), i) ==> NamedAt(line, name, i)
  {
    if OccursAt(line, KeyText(name), i) {
      var part := line[i..i + |name| + 3];
      assert forall k :: 0 <= k < |part| ==> part[k] == line[i + k];
      assert KeyText(name)[1..1 + |name|] == name;
      assert part[1..1 + |name|] == line[i + 1..i + 1 + |name|];
      forall k | i < k <= i + |name| ensures IsLetter(line[k]) {
        assert line[k] == part[k - i] == KeyText(name)[k - i] == name[k - i - 1];
      }
    }
  }

  lemma OccursAfter(a: string, b: string, key: string, i: nat)
    ensures OccursAt(a + b, key, |a| + i) <==> OccursAt(b, key, i)
  {
    if i + |key| <= |b| {
      assert (a + b)[|a| + i..|a| + i + |key|] == b[i..i + |key|];
    }
  }

  /** No name stands at a position of a quoted value: the quote that would close the name either follows a
      backslash or closes the value, and no colon follows it. */
  lemma NoNameInString(s: string, rest: string, i: nat, n: nat)
    requires n > 0 && EndsValue(rest) && i < |Quoted(s)|
    ensures !NameAt(Quoted(s) + rest, i, n)
  {
    var line, q, close := Quoted(s) + rest, i + n + 1, |Quoted(s)| - 1;
    assert line[close] == '"' && line[close + 1] == rest[0];
    if q < close {
      assert line[q] == Escape(s)[q - 1];
      if line[q] == '"' {
        EscapedQuotes(s, q - 1);
        assert line[q - 1] == '\\';
      }
    }
  }

  lemma NoMatchInValue(name: string, v: string, rest: string, i: nat)
    requires IsName(name) && IsValue(v) && EndsValue(rest) && i < |v|
    ensures !OccursAt(v + rest, KeyText(name), i)
  {
    MatchShape(v + rest, name, i);
    hide OccursAt, KeyText;
    if IsPlain(v) {
      assert v[i] == (v + rest)[i];
    } else {
      var s :| v == Quoted(s);
      NoNameInString(s, rest, i, |name|);
    }
  }

  /** Of all names only `other` itself stands in the head of its segment. */
  lemma OneNameInHead(name: string, head: string, other: string, tail: string, i: nat)
    requires IsName(name) && IsName(other) && |head| == 1 && head != "\""
    requires i < |head + KeyText(other)| && !(i == 1 && name == other)
    ensures !NamedAt(head + KeyText(other) + tail, name, i)
  {
    var line, close := head + KeyText(other) + tail, 2 + |other|;
    assert line[0] == head[0] && line[1] == '"' && line[close] == '"' && line[close + 1] == ':';
    assert forall k :: 2 <= k < close ==> line[k] == other[k - 2];
    assert line[2..2 + |other|] == other;
  }

  lemma NoMatchInSegment(name: string, sep: char, f: Field, rest: string, i: nat)
    requires IsName(name) && IsName(f.name) && name != f.name && IsValue(f.value) && EndsValue(rest) && sep != '"'
    requires i < |Segment(sep, f.name, f.value)|
    ensures !OccursAt(Segment(sep, f.name, f.value) + rest, KeyText(name), i)
  {
    var head, tail := [sep] + KeyText(f.name), f.value + rest;
    var line := Segment(sep, f.name, f.value) + rest;
    assert line == head + tail;
    if i < |head| {
      OneNameInHead(name, [sep], f.name, tail, i);
      MatchShape(line, name, i);
    } else {
      NoMatchInValue(name, f.value, rest, i - |head|);
      OccursAfter(head, tail, KeyText(name), i - |head|);
    }
  }

  // ---- A whole row ---------------------------------------------------------------------------

  ghost predicate WellFormed(fs: seq<Field>) {
    && (forall i :: 0 <= i < |fs| ==> IsName(fs[i].name) && IsValue(fs[i].value))
    && (forall i, j :: 0 <= i < j < |fs| ==> fs[i].name != fs[j].name)
  }

  /** The text after the first `k` fields. */
  function Rest(fs: seq<Field>, k: nat): (r: string)
    requires k <= |fs|
    ensures k > 0 ==> EndsValue(r)
    decreases |fs| - k
  {
    if k == |fs| then "}" else Segment(if k == 0 then '{' else ',', fs[k].name, fs[k].value) + Rest(fs, k + 1)
  }

  lemma {:induction false} RowSplits(fs: seq<Field>, k: nat)
    requires k <= |fs|
    ensures Row(fs) == Segments(fs[..k]) + Rest(fs, k)
    decreases |fs| - k
  {
    if k == |fs| {
      assert fs[..k] == fs;
    } else {
      RowSplits(fs, k + 1);
      assert fs[..k + 1][..k] == fs[..k];
      var before, here, rest := Segments(fs[..k]),
        Segment(if k == 0 then '{' else ',', fs[k].name, fs[k].value), Rest(fs, k + 1);
      assert Segments(fs[..k + 1]) == before + here;
      hide Segments, Segment;
      assert (before + here) + rest == before + (here + rest);
    }
  }

  /** No match of the k-th name lies before the k-th field. */
  lemma {:induction false} NoMatchBefore(fs: seq<Field>, k: nat, h: nat, i: nat)
    requires WellFormed(fs) && h <= k < |fs| && i < |Segments(fs[..h])|
    ensures !OccursAt(Row(fs), KeyText(fs[k].name), i)
    decreases h
  {
    hide OccursAt, KeyText, IsValue, Segment, EndsValue;
    if h > 0 {
      var g := h - 1;
      var before := Segments(fs[..g]);
      assert fs[..h][..g] == fs[..g];
      if i < |before| {
        NoMatchBefore(fs, k, g, i);
      } else {
        RowSplits(fs, g);
        var sep := if g == 0 then '{' else ',';
        NoMatchInSegment(fs[k].name, sep, fs[g], Rest(fs, h), i - |before|);
        OccursAfter(before, Rest(fs, g), KeyText(fs[k].name), i - |before|);
      }
    }
  }

  lemma FoundAfter(head: string, key: string, tail: string)
    requires forall i :: 0 <= i < |head| ==> !OccursAt(head + key + tail, key, i)
    ensures After(head + key + tail, key) == Some(tail)
  {
    var line := head + key + tail;
    assert OccursAt(line, key, |head|) by {
      assert line[|head|..|head| + |key|] == key;
    }
    assert Find(line, key) == Some(|head|);
    assert line[|head| + |key|..] == tail;
  }

  lemma NoMatchAtSeparator(before: string, sep: char, name: string, tail: string)
    requires sep != '"'
    ensures !OccursAt(before + [sep] + tail, KeyText(name), |before|)
  {
    var line, n := before + [sep] + tail, |KeyText(name)|;
    if |before| + n <= |line| {
      assert line[|before|..|before| + n][0] == sep;
    }
  }

  lemma Regroup(before: string, sep: char, key: string, value: string, rest: string)
    ensures before + (Segmented(sep, key, value) + rest) == before + [sep] + (key + (value + rest))
  {
  }

  lemma FoundAtSeparator(before: string, sep: char, name: string, tail: string)
    requires sep != '"'
    requires forall i :: 0 <= i < |before| ==> !OccursAt(before + [sep] + (KeyText(name) + tail), KeyText(name), i)
    ensures After(before + [sep] + (KeyText(name) + tail), KeyText(name)) == Some(tail)
  {
    var key := KeyText(name);
    NoMatchAtSeparator(before, sep, name, key + tail);
    assert before + [sep] + (key + tail) == (before + [sep]) + key + tail;
    hide *;
    FoundAfter(before + [sep], key, tail);
  }

  /** The search for a field's name finds that field and leaves the cursor on its value, whatever the string
      values of the row are. */
  lemma FindsItsField(fs: seq<Field>, k: nat)
    requires WellFormed(fs) && k < |fs|
    ensures After(Row(fs), KeyText(fs[k].name)) == Some(fs[k].value + Rest(fs, k + 1))
  {
    var before, rest := Segments(fs[..k]), Rest(fs, k + 1);
    var sep := if k == 0 then '{' else ',';
    RowSplits(fs, k);
    Regroup(before, sep, KeyText(fs[k].name), fs[k].value, rest);
    hide *;
    forall i | 0 <= i < |before| ensures !OccursAt(Row(fs), KeyText(fs[k].name), i) {
      NoMatchBefore(fs, k, k, i);
    }
    FoundAtSeparator(before, sep, fs[k].name, fs[k].value + rest);
  }
}
