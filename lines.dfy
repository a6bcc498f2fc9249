/** Transaction lines (`acc_transactions_lines`) and the sums over them. */
module Lines {
  import opened Wrappers

  /** One debit-or-credit movement. `id` stays `None` until the line is
      saved; amounts are integers in minor currency units. */
  datatype Line = Line(
    id: Option<int>,
    idAccount: Option<int>,
    idProject: Option<int>,
    title: Option<string>,
    reference: Option<string>,
    credit: int,
    debit: int)

  /** PHP truthiness of `$line->credit`: any non-zero amount. */
  predicate IsCredit(l: Line) { l.credit != 0 }

  /** PHP truthiness of `$line->debit`. */
  predicate IsDebit(l: Line) { l.debit != 0 }

  /** `!empty($line->id_account)`: set and not 0. */
  predicate HasAccount(l: Line) { l.idAccount.Some? && l.idAccount.value != 0 }

  /** The amount rule selfCheck enforces on every line. */
  predicate OneSided(l: Line)
  {
    l.credit >= 0 && l.debit >= 0 && l.credit * l.debit == 0 && l.credit + l.debit > 0
  }

  /** A one-sided line is a pure credit or a pure debit, never both, never neither. */
  lemma OneSidedMeans(l: Line)
    ensures OneSided(l) <==> (l.credit > 0 && l.debit == 0) || (l.debit > 0 && l.credit == 0)
  {
    if l.credit > 0 && l.debit > 0 {
      assert l.credit * l.debit > 0;
    }
  }

  /** Σ credit, accumulated left to right as the PHP loops do. */
  function CreditTotal(lines: seq<Line>): int
  {
    if lines == [] then 0 else CreditTotal(lines[..|lines| - 1]) + lines[|lines| - 1].credit
  }

  /** Σ debit, accumulated left to right. */
  function DebitTotal(lines: seq<Line>): int
  {
    if lines == [] then 0 else DebitTotal(lines[..|lines| - 1]) + lines[|lines| - 1].debit
  }

  /** The double-entry invariant: credits and debits cancel exactly. */
  predicate Balanced(lines: seq<Line>)
  {
    CreditTotal(lines) == DebitTotal(lines)
  }

  lemma {:induction false} CreditTotalAppend(a: seq<Line>, b: seq<Line>)
    ensures CreditTotal(a + b) == CreditTotal(a) + CreditTotal(b)
  {
    if b == [] {
      assert a + b == a;
    } else {
      CreditTotalAppend(a, b[..|b| - 1]);
      assert (a + b)[..|a + b| - 1] == a + b[..|b| - 1];
    }
  }

  lemma {:induction false} DebitTotalAppend(a: seq<Line>, b: seq<Line>)
    ensures DebitTotal(a + b) == DebitTotal(a) + DebitTotal(b)
  {
    if b == [] {
      assert a + b == a;
    } else {
      DebitTotalAppend(a, b[..|b| - 1]);
      assert (a + b)[..|a + b| - 1] == a + b[..|b| - 1];
    }
  }

  /** The totals of a two-line entry. */
  lemma TotalsOfPair(a: Line, b: Line)
    ensures CreditTotal([a, b]) == a.credit + b.credit
    ensures DebitTotal([a, b]) == a.debit + b.debit
  {
    var pair := [a, b];
    assert pair[..|pair| - 1] == [a];
    assert [a][..0] == [];
    assert CreditTotal([a]) == a.credit && DebitTotal([a]) == a.debit;
  }

  /** Appending a group that is balanced on its own keeps the balance. */
  lemma BalancedAppend(a: seq<Line>, b: seq<Line>)
    requires Balanced(a) && Balanced(b)
    ensures Balanced(a + b)
  {
    CreditTotalAppend(a, b);
    DebitTotalAppend(a, b);
  }

  /** Over one-sided lines both totals are non-negative, and together they
      are positive as soon as there is a line. */
  lemma {:induction false} TotalsOfOneSided(lines: seq<Line>)
    requires forall i | 0 <= i < |lines| :: OneSided(lines[i])
    ensures CreditTotal(lines) >= 0 && DebitTotal(lines) >= 0
    ensures lines != [] ==> CreditTotal(lines) + DebitTotal(lines) > 0
  {
    if lines != [] {
      TotalsOfOneSided(lines[..|lines| - 1]);
      assert OneSided(lines[|lines| - 1]);
    }
  }

  /** PHP `empty()` on a nullable string: null, "" and "0" are empty. */
  predicate EmptyText(s: Option<string>) { s.None? || s.value == "" || s.value == "0" }

  // ---- the line list ----

  /** The lines removeLine keeps: those whose id is not `id` (compared with
      `===`, so a `None` id matches every unsaved line), in their order. */
  function WithoutId(lines: seq<Line>, id: Option<int>): (r: seq<Line>)
    ensures |r| <= |lines|
    ensures forall l :: l in r <==> l in lines && l.id != id
  {
    if lines == [] then []
    else WithoutId(lines[..|lines| - 1], id) + (if lines[|lines| - 1].id == id then [] else [lines[|lines| - 1]])
  }

  /** removeLine goes through the lines in order: the kept lines of a
      concatenation are the kept lines of each part, one after the other. */
  lemma {:induction false} WithoutIdAppend(a: seq<Line>, b: seq<Line>, id: Option<int>)
    ensures WithoutId(a + b, id) == WithoutId(a, id) + WithoutId(b, id)
    decreases |b|
  {
    if b == [] {
      assert a + b == a;
    } else {
      var init := b[..|b| - 1];
      assert (a + b)[..|a + b| - 1] == a + init;
      assert (a + b)[|a + b| - 1] == b[|b| - 1];
      WithoutIdAppend(a, init, id);
    }
  }

  /** One step of removeLine's loop over the prefix `lines[..i]`. */
  lemma WithoutIdStep(lines: seq<Line>, i: int, id: Option<int>)
    requires 0 <= i < |lines|
    ensures WithoutId(lines[..i + 1], id) == WithoutId(lines[..i], id) + (if lines[i].id == id then [] else [lines[i]])
    ensures CountId(lines[..i + 1], id) == CountId(lines[..i], id) + (if lines[i].id == id then 1 else 0)
  {
    assert lines[..i + 1][..i] == lines[..i];
  }

  /** A non-empty list is its prefix followed by its last line. */
  lemma InitPlusLast(lines: seq<Line>)
    requires lines != []
    ensures lines[..|lines| - 1] + [lines[|lines| - 1]] == lines
  {
  }

  /** When no line carries the id, removeLine keeps the list as it is. */
  lemma {:induction false} WithoutAbsentId(lines: seq<Line>, id: Option<int>)
    requires forall i | 0 <= i < |lines| :: lines[i].id != id
    ensures WithoutId(lines, id) == lines
  {
    if lines != [] {
      var init := lines[..|lines| - 1];
      var last := lines[|lines| - 1];
      assert last.id != id;
      assert forall i | 0 <= i < |init| :: init[i].id != id by {
        forall i | 0 <= i < |init| ensures init[i].id != id {
          assert init[i] == lines[i];
        }
      }
      WithoutAbsentId(init, id);
      assert WithoutId(lines, id) == init + [last];
      InitPlusLast(lines);
    }
  }

  /** How many lines carry `id`. */
  function CountId(lines: seq<Line>, id: Option<int>): nat
  {
    if lines == [] then 0
    else CountId(lines[..|lines| - 1], id) + (if lines[|lines| - 1].id == id then 1 else 0)
  }

  /** `n` copies of a line. */
  function Repeat(l: Line, n: nat): (r: seq<Line>)
    ensures |r| == n && forall i | 0 <= i < n :: r[i] == l
  {
    seq(n, _ => l)
  }

  /** removeLine splits the list: every line is either kept or counted as removed. */
  lemma {:induction false} WithoutIdSplits(lines: seq<Line>, id: Option<int>)
    ensures |WithoutId(lines, id)| + CountId(lines, id) == |lines|
  {
    if lines != [] {
      WithoutIdSplits(lines[..|lines| - 1], id);
    }
  }

  /** Saved lines have distinct ids. */
  predicate DistinctIds(lines: seq<Line>)
  {
    forall i, j | 0 <= i < j < |lines| :: lines[i].id.Some? ==> lines[i].id != lines[j].id
  }

  /** With distinct ids, removing a saved line that is present removes
      exactly one line, so exactly one copy goes to the removed lines. */
  lemma {:induction false} RemoveSavedLineOnce(lines: seq<Line>, k: int)
    requires DistinctIds(lines) && 0 <= k < |lines| && lines[k].id.Some?
    ensures CountId(lines, lines[k].id) == 1
    ensures |WithoutId(lines, lines[k].id)| == |lines| - 1
  {
    var id := lines[k].id;
    var init := lines[..|lines| - 1];
    assert DistinctIds(init) by {
      forall i, j | 0 <= i < j < |init| && init[i].id.Some? ensures init[i].id != init[j].id {
        assert init[i] == lines[i] && init[j] == lines[j];
      }
    }
    if k == |lines| - 1 {
      NoIdInPrefix(init, id, lines);
    } else {
      assert init[k] == lines[k];
      RemoveSavedLineOnce(init, k);
    }
    WithoutIdSplits(lines, id);
  }

  lemma {:induction false} NoIdInPrefix(init: seq<Line>, id: Option<int>, lines: seq<Line>)
    requires id.Some? && |lines| == |init| + 1 && init == lines[..|init|] && lines[|init|].id == id
    requires DistinctIds(lines)
    ensures CountId(init, id) == 0
  {
    if init != [] {
      var shorter := init[..|init| - 1];
      var rest := shorter + [lines[|init|]];
      assert DistinctIds(rest) by {
        forall i, j | 0 <= i < j < |rest| && rest[i].id.Some? ensures rest[i].id != rest[j].id {
          if j == |rest| - 1 { assert rest[j] == lines[|init|] && rest[i] == lines[i]; }
          else { assert rest[i] == lines[i] && rest[j] == lines[j]; }
        }
      }
      assert init[|init| - 1] == lines[|init| - 1];
      NoIdInPrefix(shorter, id, rest);
    }
  }

  // ---- first lines ----

  /** The first credit line, if any. */
  function FirstCredit(lines: seq<Line>): (r: Option<Line>)
    ensures r.Some? ==> r.value in lines && IsCredit(r.value)
    ensures r.Some? ==> exists k | 0 <= k < |lines| :: lines[k] == r.value && forall j | 0 <= j < k :: !IsCredit(lines[j])
    ensures r.None? <==> forall i | 0 <= i < |lines| :: !IsCredit(lines[i])
  {
    if lines == [] then None
    else if IsCredit(lines[0]) then Some(lines[0])
    else FirstCredit(lines[1..])
  }

  /** The first debit line, if any. */
  function FirstDebit(lines: seq<Line>): (r: Option<Line>)
    ensures r.Some? ==> r.value in lines && IsDebit(r.value)
    ensures r.Some? ==> exists k | 0 <= k < |lines| :: lines[k] == r.value && forall j | 0 <= j < k :: !IsDebit(lines[j])
    ensures r.None? <==> forall i | 0 <= i < |lines| :: !IsDebit(lines[i])
  {
    if lines == [] then None
    else if IsDebit(lines[0]) then Some(lines[0])
    else FirstDebit(lines[1..])
  }

  /** In a balanced entry of two one-sided lines, one line is the credit and
      the other the debit, for the same amount. */
  lemma SimpleEntrySides(a: Line, b: Line)
    requires OneSided(a) && OneSided(b) && Balanced([a, b])
    ensures FirstCredit([a, b]).Some? && FirstDebit([a, b]).Some?
    ensures FirstCredit([a, b]) != FirstDebit([a, b])
    ensures FirstCredit([a, b]).value.credit == FirstDebit([a, b]).value.debit
  {
    OneSidedMeans(a);
    OneSidedMeans(b);
    TotalsOfPair(a, b);
    assert [a, b][1..] == [b];
  }

  /** A line carrying an analytic project: `$line->id_project != null`. */
  predicate HasProject(l: Line) { l.idProject.Some? && l.idProject.value != 0 }

  /** getProjectId: the project of the first line that has one. */
  function FirstProject(lines: seq<Line>): (r: Option<int>)
    ensures r.Some? ==> r.value != 0 && exists i | 0 <= i < |lines| :: lines[i].idProject == r
    ensures r.None? <==> forall i | 0 <= i < |lines| :: !HasProject(lines[i])
  {
    if lines == [] then None
    else if HasProject(lines[0]) then lines[0].idProject
    else FirstProject(lines[1..])
  }

  /** Lines without a project do not hide a later one, and lines after the
      first project do not change the answer. */
  lemma {:induction false} FirstProjectSkips(a: seq<Line>, b: seq<Line>)
    requires forall i | 0 <= i < |a| :: !HasProject(a[i])
    ensures FirstProject(a + b) == FirstProject(b)
  {
    if a != [] {
      assert (a + b)[0] == a[0] && !HasProject(a[0]);
      assert (a + b)[1..] == a[1..] + b;
      FirstProjectSkips(a[1..], b);
    } else {
      assert a + b == b;
    }
  }

  /** When every line carries the same project, that is the project. */
  lemma SharedProjectFound(lines: seq<Line>, p: int)
    requires |lines| > 0 && p != 0
    requires forall i | 0 <= i < |lines| :: lines[i].idProject == Some(p)
    ensures FirstProject(lines) == Some(p)
  {
  }
}
