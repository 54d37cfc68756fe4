/**
 * The MANIFEST object of an environment as the redeploy command reads and
 * rewrites it: one `name:package:path` line per module, each ending in a
 * newline. Upserting a module replaces the package and path of every entry
 * with its name, keeps the other entries in order, and appends the module
 * when no entry has its name.
 */
module Manifest {
  import opened Wrappers
  import opened Text
  import opened Records

  datatype Entry = Entry(name: string, package: string, path: string)

  /** `name + ':' + package + ':' + path`. */
  function Line(e: Entry): string {
    e.name + [':'] + e.package + [':'] + e.path
  }

  /** No field holds the field separator `:` or the line separator. */
  predicate Clean(e: Entry) {
    ':' !in e.name && ':' !in e.package && ':' !in e.path
    && '\n' !in e.name && '\n' !in e.package && '\n' !in e.path
  }

  function Lines(es: seq<Entry>): (r: seq<string>)
    ensures |r| == |es| && forall k :: 0 <= k < |es| ==> r[k] == Line(es[k])
  {
    if es == [] then [] else [Line(es[0])] + Lines(es[1..])
  }

  /** The text written back: every entry's line followed by a newline, in list order. */
  function Serialize(es: seq<Entry>): string {
    if es == [] then [] else Line(es[0]) + ['\n'] + Serialize(es[1..])
  }

  /** The non-empty lines, in order (the ones the upsert reads). */
  function NonEmpty(lines: seq<string>): (r: seq<string>)
    ensures |r| <= |lines|
    ensures forall k :: 0 <= k < |r| ==> r[k] != "" && r[k] in lines
  {
    if lines == [] then []
    else NonEmpty(lines[..|lines| - 1]) + (if lines[|lines| - 1] != "" then [lines[|lines| - 1]] else [])
  }

  /**
   * The entry one non-empty stored line yields when upserting `m`: `m` itself
   * when the text before the first `:` is `m`'s name; otherwise the first
   * three `:`-separated fields of the line (an `IndexError` when there are
   * fewer than three). What is kept of a line is a prefix of it: fields after
   * a third `:` are dropped.
   */
  function ParseLine(line: string, m: Entry): (r: Result<Entry, PyError>)
    ensures r.Success? <==> Split(line, ':')[0] == m.name || Count(line, ':') >= 2
    ensures r.Failure? ==> r.error == IndexError
    ensures r.Success? ==> r.value.name == Split(line, ':')[0]
    ensures r.Success? ==> (r.value == m <==> Split(line, ':')[0] == m.name)
    ensures r.Success? && r.value != m ==> Line(r.value) <= line && ':' !in r.value.package && ':' !in r.value.path
    ensures r.Success? && r.value != m && Count(line, ':') == 2 ==> Line(r.value) == line
  {
    SplitPiecesLack(line, ':');
    SplitJoinsBack(line, ':');
    var tmp := Split(line, ':');
    if tmp[0] == m.name then Success(m)
    else if |tmp| < 3 then Failure(IndexError)
    else
      var e := Entry(tmp[0], tmp[1], tmp[2]);
      assert Join(tmp, ':') == tmp[0] + [':'] + tmp[1] + [':'] + Join(tmp[2..], ':') by {
        assert tmp[1..][1..] == tmp[2..];
      }
      assert Join(tmp[2..], ':')[..|tmp[2]|] == tmp[2];
      assert |tmp| == 3 ==> Join(tmp[2..], ':') == tmp[2];
      Success(e)
  }

  /**
   * The entries read from the stored lines, in order, each stored line through
   * `ParseLine`; empty lines yield nothing. The first line that cannot be read
   * raises.
   */
  function Rewrite(lines: seq<string>, m: Entry): (r: Result<seq<Entry>, PyError>)
    ensures r.Failure? ==> r.error == IndexError
  {
    if lines == [] then Success([])
    else
      match Rewrite(lines[..|lines| - 1], m)
      case Failure(e) => Failure(e)
      case Success(es) =>
        var line := lines[|lines| - 1];
        if line == "" then Success(es)
        else
          match ParseLine(line, m)
          case Failure(e) => Failure(e)
          case Success(e) => Success(es + [e])
  }

  /** Some non-empty stored line carries the name `name` (the `module_exist` flag). */
  predicate Matched(lines: seq<string>, name: string) {
    exists i :: 0 <= i < |lines| && lines[i] != "" && Split(lines[i], ':')[0] == name
  }

  /**
   * The entries after upserting `m` into the stored manifest text (`None` when
   * no object exists): the stored entries with `m` in place of every entry of
   * its name, and `m` appended when there was none.
   */
  function Upsert(stored: Option<string>, m: Entry): Result<seq<Entry>, PyError> {
    if stored.None? then Success([m])
    else
      var lines := Split(stored.value, '\n');
      match Rewrite(lines, m)
      case Failure(e) => Failure(e)
      case Success(es) => Success(if Matched(lines, m.name) then es else es + [m])
  }

  /**
   * After an upsert the module is in the manifest, and every entry with its
   * name is the module; with no stored object the manifest is the module alone.
   */
  lemma UpsertHoldsModule(stored: Option<string>, m: Entry)
    requires Upsert(stored, m).Success?
    ensures stored.None? ==> Upsert(stored, m).value == [m]
    ensures m in Upsert(stored, m).value
    ensures forall e :: e in Upsert(stored, m).value && e.name == m.name ==> e == m
  {
    if stored.Some? {
      var lines := Split(stored.value, '\n');
      var es := Rewrite(lines, m).value;
      RewriteReadsEachLine(lines, m);
      forall e | e in es && e.name == m.name ensures e == m {
        var k :| 0 <= k < |es| && es[k] == e;
        assert ParseLine(NonEmpty(lines)[k], m) == Success(e);
      }
      if Matched(lines, m.name) {
        var i :| 0 <= i < |lines| && lines[i] != "" && Split(lines[i], ':')[0] == m.name;
        NonEmptyKeeps(lines, i);
        var k :| 0 <= k < |NonEmpty(lines)| && NonEmpty(lines)[k] == lines[i];
        assert ParseLine(NonEmpty(lines)[k], m) == Success(es[k]);
      }
    }
  }

  /** The text the upsert writes, or the error it raises while reading the stored text. */
  function UpsertText(stored: Option<string>, m: Entry): Result<string, PyError> {
    match Upsert(stored, m)
    case Failure(e) => Failure(e)
    case Success(es) => Success(Serialize(es))
  }

  /** `Serialize` built one entry at a time, as the write loop does. */
  lemma {:induction false} SerializeAppend(es: seq<Entry>, e: Entry)
    ensures Serialize(es + [e]) == Serialize(es) + Line(e) + ['\n']
    decreases |es|
  {
    if es == [] {
      assert es + [e] == [e];
    } else {
      assert (es + [e])[1..] == es[1..] + [e];
      SerializeAppend(es[1..], e);
    }
  }

  /** Written text starts with the first entry's name and its `:`. */
  lemma SerializedStart(es: seq<Entry>)
    requires es != []
    ensures var s := Serialize(es);
            |es[0].name| < |s| && s[|es[0].name|] == ':'
            && forall i :: 0 <= i < |es[0].name| ==> s[i] == es[0].name[i]
  {
    var e := es[0];
    var line := Line(e);
    var s := Serialize(es);
    assert s == line + (['\n'] + Serialize(es[1..]));
    assert line == e.name + ([':'] + e.package + [':'] + e.path);
    assert s[|e.name|] == line[|e.name|] == ':';
    forall i | 0 <= i < |e.name| ensures s[i] == e.name[i] {
      assert s[i] == line[i];
    }
  }

  /**
   * Written text ends with the last entry's path and a newline, after a `:`
   * that stands at or after the first entry's second `:`.
   */
  lemma {:induction false} SerializedEnd(es: seq<Entry>)
    requires es != []
    ensures var s := Serialize(es);
            var last := es[|es| - 1];
            var p := |s| - 2 - |last.path|;
            |es[0].name| + 1 + |es[0].package| <= p && s[p] == ':' && s[|s| - 1] == '\n'
            && forall i :: p < i < |s| - 1 ==> s[i] == last.path[i - p - 1]
    decreases |es|
  {
    var e := es[0];
    var s := Serialize(es);
    var x := e.name + [':'] + e.package + [':'];
    if |es| == 1 {
      assert s == Line(e) + ['\n'] + Serialize(es[1..]);
      assert es[1..] == [];
      assert Line(e) == x + e.path;
    } else {
      var rest := es[1..];
      SerializedEnd(rest);
      assert s == Line(e) + ['\n'] + Serialize(rest);
    }
  }

  /** Every non-empty line of `lines` is among `NonEmpty(lines)`. */
  lemma {:induction false} NonEmptyKeeps(lines: seq<string>, i: int)
    requires 0 <= i < |lines| && lines[i] != ""
    ensures lines[i] in NonEmpty(lines)
    decreases |lines|
  {
    if i < |lines| - 1 {
      NonEmptyKeeps(lines[..|lines| - 1], i);
    }
  }

  /**
   * `Rewrite` reads each non-empty line through `ParseLine`: it succeeds exactly
   * when every one of them does, and then the k-th entry comes from the k-th
   * non-empty line.
   */
  lemma {:induction false} RewriteReadsEachLine(lines: seq<string>, m: Entry)
    ensures Rewrite(lines, m).Success? <==>
              forall k :: 0 <= k < |NonEmpty(lines)| ==> ParseLine(NonEmpty(lines)[k], m).Success?
    ensures Rewrite(lines, m).Success? ==>
              var es := Rewrite(lines, m).value;
              |es| == |NonEmpty(lines)|
              && forall k :: 0 <= k < |es| ==> ParseLine(NonEmpty(lines)[k], m) == Success(es[k])
    decreases |lines|
  {
    if lines != [] {
      var init := lines[..|lines| - 1];
      RewriteReadsEachLine(init, m);
      var ne := NonEmpty(init);
      var last := lines[|lines| - 1];
      assert NonEmpty(lines) == ne + (if last != "" then [last] else []);
      assert forall k :: 0 <= k < |ne| ==> NonEmpty(lines)[k] == ne[k];
      if Rewrite(init, m).Failure? {
        var k :| 0 <= k < |ne| && !ParseLine(ne[k], m).Success?;
        assert !ParseLine(NonEmpty(lines)[k], m).Success?;
      } else if last != "" && ParseLine(last, m).Failure? {
        assert NonEmpty(lines)[|ne|] == last;
      }
    }
  }

  /** Lines that are all non-empty are kept as they are. */
  lemma {:induction false} NonEmptyOfFull(lines: seq<string>)
    requires forall k :: 0 <= k < |lines| ==> lines[k] != ""
    ensures NonEmpty(lines) == lines
    decreases |lines|
  {
    if lines != [] {
      NonEmptyOfFull(lines[..|lines| - 1]);
      assert lines[..|lines| - 1] + [lines[|lines| - 1]] == lines;
    }
  }

  /** Empty lines do not matter: reading only the non-empty lines gives the same result. */
  lemma EmptyLinesDropped(lines: seq<string>, m: Entry)
    ensures Rewrite(lines, m) == Rewrite(NonEmpty(lines), m)
  {
    var ne := NonEmpty(lines);
    RewriteReadsEachLine(lines, m);
    RewriteReadsEachLine(ne, m);
    NonEmptyOfFull(ne);
    assert NonEmpty(ne) == ne;
    if Rewrite(lines, m).Success? {
      var a := Rewrite(lines, m).value;
      var b := Rewrite(ne, m).value;
      assert |a| == |b|;
      assert forall k :: 0 <= k < |a| ==> a[k] == b[k] by {
        forall k | 0 <= k < |a| ensures a[k] == b[k] {
          assert ParseLine(ne[k], m) == Success(a[k]);
          assert ParseLine(ne[k], m) == Success(b[k]);
        }
      }
      assert a == b;
    } else {
      assert Rewrite(ne, m).Failure?;
      assert Rewrite(lines, m).error == Rewrite(ne, m).error;
    }
  }

  /**
   * Upserting into a stored manifest: the k-th entry comes from the k-th
   * non-empty stored line and keeps its name; an entry with the module's name
   * becomes the module, every other one keeps the stored package and path (the
   * stored line itself when it has exactly three fields); the module is
   * appended, last, exactly when no stored line has its name.
   */
  lemma UpsertKeepsOthersInOrder(stored: string, m: Entry)
    requires Upsert(Some(stored), m).Success?
    ensures var lines := Split(stored, '\n');
            var ne := NonEmpty(lines);
            var es := Upsert(Some(stored), m).value;
            |es| == |ne| + (if Matched(lines, m.name) then 0 else 1)
            && (forall k :: 0 <= k < |ne| ==>
                  es[k].name == Split(ne[k], ':')[0]
                  && (es[k].name == m.name ==> es[k] == m)
                  && (es[k].name != m.name ==> Line(es[k]) <= ne[k])
                  && (es[k].name != m.name && Count(ne[k], ':') == 2 ==> Line(es[k]) == ne[k]))
            && (!Matched(lines, m.name) ==> es[|ne|] == m)
  {
    var lines := Split(stored, '\n');
    RewriteReadsEachLine(lines, m);
  }

  /** A clean entry's line splits back into its three fields. */
  lemma LineFields(e: Entry)
    requires Clean(e)
    ensures Split(Line(e), ':') == [e.name, e.package, e.path]
  {
    var parts := [e.name, e.package, e.path];
    assert Join(parts, ':') == Line(e) by {
      assert parts[1..] == [e.package, e.path];
      assert [e.package, e.path][1..] == [e.path];
      assert Join([e.package, e.path], ':') == e.package + [':'] + e.path;
    }
    SplitJoin(parts, ':');
  }

  /** The stored line of a clean entry reads back as the entry, or as the module when the names agree. */
  lemma ParseCleanLine(e: Entry, m: Entry)
    requires Clean(e)
    ensures ParseLine(Line(e), m) == Success(if e.name == m.name then m else e)
  {
    LineFields(e);
  }

  /** The written text is the entries' lines joined by newlines, with a final newline. */
  lemma {:induction false} SerializeJoin(es: seq<Entry>)
    ensures Serialize(es) == Join(Lines(es) + [""], '\n')
    decreases |es|
  {
    if es != [] {
      SerializeJoin(es[1..]);
      assert Lines(es) + [""] == [Line(es[0])] + (Lines(es[1..]) + [""]);
    }
  }

  /** Reading back the text written for clean entries gives their lines and one empty last piece. */
  lemma SplitSerialized(es: seq<Entry>)
    requires forall e :: e in es ==> Clean(e)
    ensures Split(Serialize(es), '\n') == Lines(es) + [""]
  {
    SerializeJoin(es);
    var parts := Lines(es) + [""];
    assert forall i :: 0 <= i < |parts| ==> '\n' !in parts[i] by {
      forall i | 0 <= i < |parts| ensures '\n' !in parts[i] {
        if i < |es| {
          assert Clean(es[i]);
        }
      }
    }
    SplitJoin(parts, '\n');
  }

  /** The entries with the module in place of every entry of its name. */
  function Replace(es: seq<Entry>, m: Entry): (r: seq<Entry>)
    ensures |r| == |es|
    ensures forall k :: 0 <= k < |es| ==> r[k] == if es[k].name == m.name then m else es[k]
  {
    if es == [] then [] else [if es[0].name == m.name then m else es[0]] + Replace(es[1..], m)
  }

  /** The pieces of a written manifest of clean entries: one non-empty line per entry, named by it. */
  lemma SerializedLines(es: seq<Entry>)
    requires forall e :: e in es ==> Clean(e)
    ensures var lines := Split(Serialize(es), '\n');
            lines == Lines(es) + [""]
            && NonEmpty(lines) == Lines(es)
            && forall k :: 0 <= k < |es| ==> Split(Lines(es)[k], ':')[0] == es[k].name
  {
    SplitSerialized(es);
    LineNames(es);
    NonEmptyOfFull(Lines(es));
    NonEmptyDropsEmpty(Lines(es));
  }

  /** Every written line of a clean entry is non-empty and starts with the entry's name. */
  lemma LineNames(es: seq<Entry>)
    requires forall e :: e in es ==> Clean(e)
    ensures forall k :: 0 <= k < |es| ==> Lines(es)[k] != "" && Split(Lines(es)[k], ':')[0] == es[k].name
  {
    var ls := Lines(es);
    forall k | 0 <= k < |ls| ensures ls[k] != "" && Split(ls[k], ':')[0] == es[k].name {
      assert ls[k][|es[k].name|] == ':';
      assert Clean(es[k]);
      LineFields(es[k]);
    }
  }

  /** A trailing empty line is dropped. */
  lemma NonEmptyDropsEmpty(lines: seq<string>)
    ensures NonEmpty(lines + [""]) == NonEmpty(lines)
  {
    assert (lines + [""])[..|lines|] == lines;
  }

  /**
   * Round trip: reading back a written manifest of clean entries while upserting
   * `m` gives the same entries, in the same order, with `m` in place of those of
   * its name.
   */
  lemma ReadBackSerialized(es: seq<Entry>, m: Entry)
    requires forall e :: e in es ==> Clean(e)
    ensures Rewrite(Split(Serialize(es), '\n'), m) == Success(Replace(es, m))
  {
    SerializedLines(es);
    var lines := Split(Serialize(es), '\n');
    var ls := Lines(es);
    forall k | 0 <= k < |es| ensures ParseLine(ls[k], m) == Success(Replace(es, m)[k]) {
      assert Clean(es[k]);
      ParseCleanLine(es[k], m);
    }
    RewriteReadsEachLine(lines, m);
    var r := Rewrite(lines, m).value;
    assert r == Replace(es, m);
  }

  /** In a written manifest of clean entries, the module is found exactly when an entry has its name. */
  lemma ReadBackFindsModule(es: seq<Entry>, name: string)
    requires forall e :: e in es ==> Clean(e)
    ensures Matched(Split(Serialize(es), '\n'), name) <==> exists k :: 0 <= k < |es| && es[k].name == name
  {
    SerializedLines(es);
    MatchedLines(es, Lines(es), name);
  }

  lemma MatchedLines(es: seq<Entry>, ls: seq<string>, name: string)
    requires |ls| == |es|
    requires forall k :: 0 <= k < |es| ==> ls[k] != "" && Split(ls[k], ':')[0] == es[k].name
    ensures Matched(ls + [""], name) <==> exists k :: 0 <= k < |es| && es[k].name == name
  {
    var lines := ls + [""];
    if exists k :: 0 <= k < |es| && es[k].name == name {
      var k :| 0 <= k < |es| && es[k].name == name;
      assert lines[k] == ls[k];
    }
    if Matched(lines, name) {
      var i :| 0 <= i < |lines| && lines[i] != "" && Split(lines[i], ':')[0] == name;
      assert lines[i] == ls[i];
    }
  }

  /** A prefix of a text without `c` has no `c` either. */
  lemma PrefixLacks(p: string, s: string, c: char)
    requires p <= s && c !in s
    ensures c !in p
  {
  }

  /** Upserting a clean module leaves only clean entries: every stored field is cut at `:` and at line ends. */
  lemma UpsertEntriesClean(stored: Option<string>, m: Entry)
    requires Clean(m) && Upsert(stored, m).Success?
    ensures forall e :: e in Upsert(stored, m).value ==> Clean(e)
  {
    if stored.Some? {
      var lines := Split(stored.value, '\n');
      SplitPiecesLack(stored.value, '\n');
      var ne := NonEmpty(lines);
      RewriteReadsEachLine(lines, m);
      var es := Rewrite(lines, m).value;
      forall k | 0 <= k < |es| ensures Clean(es[k]) {
        var line := ne[k];
        assert line in lines;
        assert '\n' !in line;
        if es[k] != m {
          assert ParseLine(line, m) == Success(es[k]);
          PrefixLacks(Line(es[k]), line, '\n');
          var tmp := Split(line, ':');
          SplitPiecesLack(line, ':');
          assert ':' !in tmp[0];
        }
      }
    }
  }

  /** Upserting the same module twice writes the same text as upserting it once. */
  lemma UpsertIdempotent(stored: Option<string>, m: Entry)
    requires Clean(m) && UpsertText(stored, m).Success?
    ensures UpsertText(Some(UpsertText(stored, m).value), m) == UpsertText(stored, m)
  {
    var es := Upsert(stored, m).value;
    UpsertHoldsModule(stored, m);
    UpsertEntriesClean(stored, m);
    ReadBackSerialized(es, m);
    ReadBackFindsModule(es, m.name);
    assert Replace(es, m) == es;
    var k :| 0 <= k < |es| && es[k] == m;
  }

  /** The upsert of a stored text whose lines read as `read`: those entries, and the module last when none had its name. */
  lemma UpsertFromRead(text: string, m: Entry, read: seq<Entry>)
    requires Rewrite(Split(text, '\n'), m) == Success(read)
    ensures Upsert(Some(text), m) == Success(if Matched(Split(text, '\n'), m.name) then read else read + [m])
  {
  }

  /**
   * Reading one more line: an empty line adds nothing, any other adds what
   * `ParseLine` reads from it, and the line counts as a match when its first
   * field is the module's name.
   */
  lemma ReadOneLine(lines: seq<string>, i: nat, m: Entry, es: seq<Entry>)
    requires i < |lines| && Rewrite(lines[..i], m) == Success(es)
    ensures Rewrite(lines[..i + 1], m) ==
              if lines[i] == "" then Success(es)
              else match ParseLine(lines[i], m)
                   case Failure(e) => Failure(e)
                   case Success(e) => Success(es + [e])
    ensures Matched(lines[..i + 1], m.name) <==>
              Matched(lines[..i], m.name) || (lines[i] != "" && Split(lines[i], ':')[0] == m.name)
  {
    RewriteStep(lines, i, m, es);
    PrefixSnoc(lines, i);
    MatchedSnoc(lines[..i], lines[i], m.name);
  }

  /** A prefix one longer is the shorter prefix and the next element. */
  lemma PrefixSnoc<T>(s: seq<T>, i: nat)
    requires i < |s|
    ensures s[..i + 1] == s[..i] + [s[i]]
  {
  }

  lemma RewriteStep(lines: seq<string>, i: nat, m: Entry, es: seq<Entry>)
    requires i < |lines| && Rewrite(lines[..i], m) == Success(es)
    ensures Rewrite(lines[..i + 1], m) ==
              if lines[i] == "" then Success(es)
              else match ParseLine(lines[i], m)
                   case Failure(e) => Failure(e)
                   case Success(e) => Success(es + [e])
  {
    assert lines[..i + 1][..i] == lines[..i];
  }

  lemma MatchedSnoc(lines: seq<string>, line: string, name: string)
    ensures Matched(lines + [line], name) <==>
              Matched(lines, name) || (line != "" && Split(line, ':')[0] == name)
  {
    var ls := lines + [line];
    if Matched(lines, name) {
      var i :| 0 <= i < |lines| && lines[i] != "" && Split(lines[i], ':')[0] == name;
      assert ls[i] == lines[i];
    }
    if line != "" && Split(line, ':')[0] == name {
      assert ls[|lines|] == line;
    }
    if Matched(ls, name) {
      var i :| 0 <= i < |ls| && ls[i] != "" && Split(ls[i], ':')[0] == name;
      if i < |lines| {
        assert ls[i] == lines[i];
      }
    }
  }

  /** Reading a longer list of lines goes on failing once a prefix failed. */
  lemma {:induction false} RewriteFailurePersists(lines: seq<string>, k: nat, m: Entry)
    requires k <= |lines| && Rewrite(lines[..k], m).Failure?
    ensures Rewrite(lines, m).Failure?
    decreases |lines| - k
  {
    if k == |lines| {
      assert lines[..k] == lines;
    } else {
      assert lines[..k + 1][..k] == lines[..k];
      RewriteFailurePersists(lines, k + 1, m);
    }
  }
}
