/**
 * The drug text of the form: split at commas, each piece stripped, the blank pieces
 * skipped, the names kept in the order typed; and the loop that makes one row per
 * name, whatever the row is.
 */
module DrugList {
  import opened Wrappers
  import opened Text

  /** The pieces mapped by `f` and concatenated in order. */
  function FlatMap(parts: seq<string>, f: string -> seq<string>): seq<string>
    decreases |parts|
  {
    if parts == [] then []
    else FlatMap(parts[..|parts| - 1], f) + f(parts[|parts| - 1])
  }

  lemma FlatMapSnoc(init: seq<string>, piece: string, f: string -> seq<string>)
    ensures FlatMap(init + [piece], f) == FlatMap(init, f) + f(piece)
  {
    assert (init + [piece])[..|init|] == init;
  }

  lemma {:induction false} FlatMapAppend(a: seq<string>, b: seq<string>, f: string -> seq<string>)
    ensures FlatMap(a + b, f) == FlatMap(a, f) + FlatMap(b, f)
    decreases |b|
  {
    if b == [] {
      assert a + b == a;
    } else {
      var b' := b[..|b| - 1];
      var last := b[|b| - 1];
      assert b' + [last] == b;
      assert a + b == (a + b') + [last];
      FlatMapSnoc(a + b', last, f);
      FlatMapSnoc(b', last, f);
      FlatMapAppend(a, b', f);
    }
  }

  /** A property every piece's results have holds of every element of the result. */
  lemma {:induction false} FlatMapAll(parts: seq<string>, f: string -> seq<string>, P: string -> bool)
    requires forall j, x :: 0 <= j < |parts| && x in f(parts[j]) ==> P(x)
    ensures forall x :: x in FlatMap(parts, f) ==> P(x)
    decreases |parts|
  {
    if parts != [] {
      var k := |parts| - 1;
      var init := parts[..k];
      assert forall j :: 0 <= j < |init| ==> init[j] == parts[j];
      FlatMapAll(init, f, P);
    }
  }

  /** At most one result per piece when `f` gives at most one. */
  lemma {:induction false} FlatMapLength(parts: seq<string>, f: string -> seq<string>)
    requires forall j :: 0 <= j < |parts| ==> |f(parts[j])| <= 1
    ensures |FlatMap(parts, f)| <= |parts|
    decreases |parts|
  {
    if parts != [] {
      var k := |parts| - 1;
      FlatMapLength(parts[..k], f);
    }
  }

  /** One piece of the split: its stripped text, or nothing when that is empty. */
  function Kept(piece: string): seq<string>
  {
    var name := Strip(piece);
    if name == [] then [] else [name]
  }

  /** The pieces of the split, stripped, with the empty ones skipped: at most one name per piece. */
  function KeepNames(parts: seq<string>): (names: seq<string>)
    ensures |names| <= |parts|
  {
    FlatMapLength(parts, Kept);
    FlatMap(parts, Kept)
  }

  /** The name a piece keeps is its stripped text, which is not empty. */
  lemma KeptName(x: string, piece: string)
    requires x in Kept(piece)
    ensures x == Strip(piece) && x != []
  {
  }

  /** Every kept name is a non-empty, unpadded, comma-free slice, and there are no more names than pieces. */
  lemma KeepNamesClean(parts: seq<string>)
    requires forall i :: 0 <= i < |parts| ==> ',' !in parts[i]
    ensures |KeepNames(parts)| <= |parts|
    ensures forall i :: 0 <= i < |KeepNames(parts)| ==>
      KeepNames(parts)[i] != [] && Unpadded(KeepNames(parts)[i]) && ',' !in KeepNames(parts)[i]
  {
    FlatMapLength(parts, Kept);
    var clean := (x: string) => x != [] && Unpadded(x) && ',' !in x;
    forall j, x | 0 <= j < |parts| && x in Kept(parts[j])
      ensures clean(x)
    {
      KeptName(x, parts[j]);
      StripIsSlice(parts[j]);
    }
    FlatMapAll(parts, Kept, clean);
    var names := KeepNames(parts);
    assert forall i :: 0 <= i < |names| ==> names[i] in names;
  }

  function DrugNames(drugs: string): (names: seq<string>)
    ensures forall i :: 0 <= i < |names| ==> names[i] != [] && Unpadded(names[i]) && ',' !in names[i]
  {
    var parts := Split(drugs, ',');
    KeepNamesClean(parts);
    KeepNames(parts)
  }

  /** `strip` returns a slice of its input. */
  lemma StripIsSlice(s: string)
    ensures exists i, j :: 0 <= i <= j <= |s| && Strip(s) == s[i..j]
  {
    var t := TrimStart(s);
    if t != [] {
      var r := TrimEnd(t);
      var i := |s| - |t|;
      assert Strip(s) == s[i..i + |r|];
    } else {
      assert Strip(s) == s[0..0];
    }
  }

  /** Names that are non-empty, unpadded and comma-free come back from their comma join. */
  lemma DrugNamesOfJoin(names: seq<string>)
    requires forall i :: 0 <= i < |names| ==> names[i] != [] && Unpadded(names[i]) && ',' !in names[i]
    ensures DrugNames(Join(names, ",")) == names
  {
    if names == [] {
      assert Split("", ',') == [""];
      assert [""][..0] == [];
    } else {
      SplitJoin(names, ',');
      KeepNamesOfClean(names);
    }
  }

  lemma {:induction false} KeepNamesOfClean(names: seq<string>)
    requires forall i :: 0 <= i < |names| ==> names[i] != [] && Unpadded(names[i])
    ensures KeepNames(names) == names
    decreases |names|
  {
    if names != [] {
      var k := |names| - 1;
      var init := names[..k];
      assert init + [names[k]] == names;
      KeepNamesOfClean(init);
      StripUnpadded(names[k]);
      FlatMapSnoc(init, names[k], Kept);
    }
  }

  /** Blank pieces and whitespace around names do not change the drug list. */
  lemma BlankPiecesSkipped(a: seq<string>, ws: string, b: seq<string>)
    requires AllSpace(ws)
    ensures KeepNames(a + [ws] + b) == KeepNames(a) + KeepNames(b)
  {
    assert Kept(ws) == [];
    FlatMapSkip(a, ws, b, Kept);
  }

  /** A piece that `f` maps to nothing can be dropped. */
  lemma FlatMapSkip(a: seq<string>, w: string, b: seq<string>, f: string -> seq<string>)
    requires f(w) == []
    ensures FlatMap(a + [w] + b, f) == FlatMap(a, f) + FlatMap(b, f)
  {
    FlatMapAppend(a + [w], b, f);
    FlatMapSnoc(a, w, f);
    assert FlatMap(a, f) + f(w) == FlatMap(a, f);
  }

  /** One more piece adds its stripped text to the drug list, unless that is empty. */
  lemma KeepNamesStep(parts: seq<string>, i: nat)
    requires i < |parts|
    ensures Strip(parts[i]) == [] ==> KeepNames(parts[..i + 1]) == KeepNames(parts[..i])
    ensures Strip(parts[i]) != [] ==> KeepNames(parts[..i + 1]) == KeepNames(parts[..i]) + [Strip(parts[i])]
  {
    assert parts[..i + 1] == parts[..i] + [parts[i]];
    FlatMapSnoc(parts[..i], parts[i], Kept);
  }

  /** Text made of commas and whitespace only. */
  predicate Blank(s: string)
  {
    forall i :: 0 <= i < |s| ==> s[i] == ',' || IsSpace(s[i])
  }

  /** A drug text of blanks and commas only gives no names. */
  lemma BlankTextNoNames(s: string)
    requires Blank(s)
    ensures DrugNames(s) == []
  {
    JoinSplit(s, ',');
    BlankPartsKeepNothing(Split(s, ','), s);
  }

  /** The last piece of a blank join is whitespace. */
  lemma BlankJoinLast(parts: seq<string>, s: string)
    requires parts != [] && Join(parts, ",") == s && Blank(s)
    requires ',' !in parts[|parts| - 1]
    ensures AllSpace(parts[|parts| - 1])
  {
    var last := parts[|parts| - 1];
    JoinLast(parts);
    assert s[|s| - |last|..] == last;
    forall j | 0 <= j < |last| ensures IsSpace(last[j]) {
      assert last[j] == s[|s| - |last| + j];
      assert last[j] != ',';
    }
  }

  /** The join of all pieces but the last is a prefix of the join, so it is blank too. */
  lemma BlankJoinInit(parts: seq<string>, s: string)
    requires |parts| > 1 && Join(parts, ",") == s && Blank(s)
    ensures Blank(Join(parts[..|parts| - 1], ","))
  {
    var s' := Join(parts[..|parts| - 1], ",");
    JoinLast(parts);
    assert s[..|s'|] == s';
    forall i | 0 <= i < |s'| ensures s'[i] == ',' || IsSpace(s'[i]) {
      assert s'[i] == s[i];
    }
  }

  lemma {:induction false} BlankPartsKeepNothing(parts: seq<string>, s: string)
    requires Join(parts, ",") == s && Blank(s)
    requires forall i :: 0 <= i < |parts| ==> ',' !in parts[i]
    ensures KeepNames(parts) == []
    decreases |parts|
  {
    if parts != [] {
      var init, last := parts[..|parts| - 1], parts[|parts| - 1];
      BlankJoinLast(parts, s);
      assert Kept(last) == [];
      assert init + [last] == parts;
      FlatMapSnoc(init, last, Kept);
      if |parts| > 1 {
        BlankJoinInit(parts, s);
        BlankPartsKeepNothing(init, Join(init, ","));
      }
    }
  }

  /** The comma join ends with its last piece, after the join of the others and a comma. */
  lemma {:induction false} JoinLast(parts: seq<string>)
    requires parts != []
    ensures |parts| == 1 ==> Join(parts, ",") == parts[0]
    ensures |parts| > 1 ==>
      Join(parts, ",") == Join(parts[..|parts| - 1], ",") + "," + parts[|parts| - 1]
    decreases |parts|
  {
    if |parts| > 2 {
      JoinLast(parts[1..]);
      assert parts[1..][..|parts| - 2] == parts[..|parts| - 1][1..];
    }
  }

  // ---------------------------------------------------------------------------
  // One row per name
  // ---------------------------------------------------------------------------

  /** The assessments of the names in order, the `k`-th made by `assess(names[k], k)`. */
  function AssessAll<A>(names: seq<string>, assess: (string, nat) -> A): (out: seq<A>)
    ensures |out| == |names|
    decreases |names|
  {
    if names == [] then []
    else
      var k := |names| - 1;
      AssessAll(names[..k], assess) + [assess(names[k], k)]
  }

  /** The `i`-th assessment is the `i`-th name's. */
  lemma {:induction false} AssessAllAt<A>(names: seq<string>, assess: (string, nat) -> A, i: nat)
    requires i < |names|
    ensures AssessAll(names, assess)[i] == assess(names[i], i)
    decreases |names|
  {
    var k := |names| - 1;
    if i < k {
      AssessAllAt(names[..k], assess, i);
      assert names[..k][i] == names[i];
    }
  }

  /**
   * What saving row after row leaves: the rows saved, and the error that stopped the
   * loop if one was raised.
   */
  datatype Saved<A> = Saved(rows: seq<A>, raised: Option<string>)

  /**
   * The rows of the names in order, the `k`-th made by `assess(names[k], k)`, up to the
   * first name whose assessment raises: its error stops the loop, and the rows before it
   * stay saved.
   */
  function SaveUntil<A>(names: seq<string>, assess: (string, nat) -> Result<A>): (s: Saved<A>)
    ensures |s.rows| <= |names|
    ensures s.raised.None? ==> |s.rows| == |names|
    decreases |names|
  {
    if names == [] then Saved([], None)
    else
      var k := |names| - 1;
      SaveNext(SaveUntil(names[..k], assess), names[k], k, assess)
  }

  /** The `k`-th name after the rows so far: nothing once an error was raised, else its row or its error. */
  function SaveNext<A>(s: Saved<A>, name: string, k: nat, assess: (string, nat) -> Result<A>): Saved<A>
  {
    if s.raised.Some? then s
    else match assess(name, k)
      case Err(m) => Saved(s.rows, Some(m))
      case Ok(a) => Saved(s.rows + [a], None)
  }

  /**
   * Each saved row is its name's assessment, and a raised error is that of the name
   * right after the saved rows: the rows are those before the first error.
   */
  lemma {:induction false} SaveUntilRows<A>(names: seq<string>, assess: (string, nat) -> Result<A>)
    ensures var s := SaveUntil(names, assess);
      && (forall i :: 0 <= i < |s.rows| ==> assess(names[i], i) == Ok(s.rows[i]))
      && (s.raised.Some? ==> |s.rows| < |names| && assess(names[|s.rows|], |s.rows|) == Err(s.raised.value))
    decreases |names|
  {
    if names != [] {
      var k := |names| - 1;
      SaveUntilRows(names[..k], assess);
      assert forall i :: 0 <= i < k ==> names[..k][i] == names[i];
    }
  }

  /** One more name is one more step of the loop. */
  lemma SaveUntilSnoc<A>(names: seq<string>, name: string, assess: (string, nat) -> Result<A>)
    ensures SaveUntil(names + [name], assess) == SaveNext(SaveUntil(names, assess), name, |names|, assess)
  {
    var all := names + [name];
    assert all[..|names|] == names;
    assert all[|all| - 1] == name;
  }

  /** Once a name has raised, the names after it change nothing: they are never assessed. */
  lemma SaveUntilStopped<A>(names: seq<string>, more: seq<string>, assess: (string, nat) -> Result<A>)
    requires SaveUntil(names, assess).raised.Some?
    ensures SaveUntil(names + more, assess) == SaveUntil(names, assess)
  {
    var s := SaveUntil(names, assess);
    var t := SaveUntil(names + more, assess);
    SaveUntilRows(names, assess);
    SaveUntilRows(names + more, assess);
    var j := |s.rows|;
    assert (names + more)[j] == names[j];
    forall i | 0 <= i <= j
      ensures (names + more)[i] == names[i]
    {
    }
    assert |t.rows| == j;
    assert t.rows == s.rows;
  }

  /** Where no name raises, every name is saved, and the rows are those of the assessment that cannot raise. */
  lemma SaveUntilNeverRaises<A>(names: seq<string>, assess: (string, nat) -> Result<A>, row: (string, nat) -> A)
    requires forall i :: 0 <= i < |names| ==> assess(names[i], i) == Ok(row(names[i], i))
    ensures SaveUntil(names, assess) == Saved(AssessAll(names, row), None)
  {
    var s := SaveUntil(names, assess);
    var out := AssessAll(names, row);
    SaveUntilRows(names, assess);
    assert s.raised.None?;
    forall i | 0 <= i < |names|
      ensures s.rows[i] == out[i]
    {
      AssessAllAt(names, row, i);
    }
    assert s.rows == out;
  }

  /** A first name that raises ends the loop before any row is saved. */
  lemma SaveUntilFirstRaises<A>(names: seq<string>, assess: (string, nat) -> Result<A>)
    requires |names| > 0 && assess(names[0], 0).Err?
    ensures SaveUntil(names, assess) == Saved([], Some(assess(names[0], 0).message))
  {
    SaveUntilRows(names, assess);
  }

  /** Once the names of the first `i` pieces raised, the pieces after them change nothing. */
  lemma KeepNamesStops<A>(parts: seq<string>, i: nat, assess: (string, nat) -> Result<A>)
    requires i <= |parts|
    requires SaveUntil(KeepNames(parts[..i]), assess).raised.Some?
    ensures SaveUntil(KeepNames(parts), assess) == SaveUntil(KeepNames(parts[..i]), assess)
  {
    assert parts[..i] + parts[i..] == parts;
    FlatMapAppend(parts[..i], parts[i..], Kept);
    SaveUntilStopped(KeepNames(parts[..i]), KeepNames(parts[i..]), assess);
  }

  /** One turn of the loop over the pieces: skip a blank piece, save a row, or stop at an error. */
  lemma SaveAllStep<A>(parts: seq<string>, i: nat, saved: seq<A>, assess: (string, nat) -> Result<A>)
    requires i < |parts|
    requires Saved(saved, None) == SaveUntil(KeepNames(parts[..i]), assess)
    ensures Strip(parts[i]) == [] ==> SaveUntil(KeepNames(parts[..i + 1]), assess) == Saved(saved, None)
    ensures Strip(parts[i]) != [] && assess(Strip(parts[i]), |saved|).Ok? ==>
      SaveUntil(KeepNames(parts[..i + 1]), assess) == Saved(saved + [assess(Strip(parts[i]), |saved|).value], None)
    ensures Strip(parts[i]) != [] && assess(Strip(parts[i]), |saved|).Err? ==>
      SaveUntil(KeepNames(parts), assess) == Saved(saved, Some(assess(Strip(parts[i]), |saved|).message))
  {
    KeepNamesStep(parts, i);
    var name := Strip(parts[i]);
    if name != [] {
      SaveUntilSnoc(KeepNames(parts[..i]), name, assess);
      if assess(name, |saved|).Err? {
        KeepNamesStops(parts, i + 1, assess);
      }
    }
  }

  /**
   * The loop over the comma-separated pieces: blank ones are skipped, each name is
   * assessed with the number of rows saved so far and its row appended; the first
   * error ends the loop.
   */
  method SaveAll<A>(parts: seq<string>, assess: (string, nat) -> Result<A>) returns (saved: seq<A>, raised: Option<string>)
    ensures Saved(saved, raised) == SaveUntil(KeepNames(parts), assess)
  {
    saved := [];
    raised := None;
    var i := 0;
    while i < |parts|
      invariant 0 <= i <= |parts|
      invariant Saved(saved, None) == SaveUntil(KeepNames(parts[..i]), assess)
    {
      var name := Strip(parts[i]);
      SaveAllStep(parts, i, saved, assess);
      if name != [] {
        var a := assess(name, |saved|);
        if a.Err? {
          return saved, Some(a.message);
        }
        saved := saved + [a.value];
      }
      i := i + 1;
    }
    assert parts[..i] == parts;
  }
}
