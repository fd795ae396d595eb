/** The Cadent-3 command list (imi_cadent3/cadent_com.py, lines 45-67).

    Each row of the command file (columns Block, Step, Command, Sleep)
    becomes a `[Block, Step]` label, the command, and the sleep time when
    that is positive; the whole list is then repeated `cmd_lst_rep` times.
    The cells keep the Python type the CSV reader gives them, because the
    main loop dispatches on that type. */
module CadentCommands {
  import opened Text

  /** A value read from the command file: a string, an integer, a float, or an
      empty numeric cell (NaN). */
  datatype Cell = Str(s: string) | Int(i: int) | Float(x: real) | NaN

  datatype CommandRow = CommandRow(block: Cell, step: Cell, command: Cell, sleep: Cell)

  /** An entry of `cmd_lst`: the two-element list `[Block, Step]`, or a
      single value (a command string, a sleep time, or anything else). */
  datatype Item = Label(block: Cell, step: Cell) | Scalar(value: Cell)

  /** `tmp_sleep > 0`; comparing text with a number raises TypeError. */
  function IsPositive(c: Cell): (r: Option<bool>)
    ensures r.None? <==> c.Str?
    ensures r == Some(true) <==> (c.Int? && c.i > 0) || (c.Float? && c.x > 0.0)
  {
    match c
    case Str(_) => None
    case Int(i) => Some(i > 0)
    case Float(x) => Some(x > 0.0)
    case NaN => Some(false)
  }

  /** The items one row contributes, in order. */
  function RowItems(row: CommandRow): (r: seq<Item>)
    requires IsPositive(row.sleep).Some?
    ensures |r| == (if IsPositive(row.sleep).value then 3 else 2)
    ensures r[0].Label? && r[1] == Scalar(row.command)
  {
    [Label(row.block, row.step), Scalar(row.command)]
      + (if IsPositive(row.sleep).value then [Scalar(row.sleep)] else [])
  }

  /** Every sleep cell can be compared with zero. */
  predicate Comparable(rows: seq<CommandRow>)
  {
    forall i :: 0 <= i < |rows| ==> IsPositive(rows[i].sleep).Some?
  }

  /** The list built from `rows` before repetition. */
  function Items(rows: seq<CommandRow>): (r: seq<Item>)
    requires Comparable(rows)
    ensures 2 * |rows| <= |r| <= 3 * |rows|
    ensures rows != [] ==> r[0] == Label(rows[0].block, rows[0].step)
    decreases |rows|
  {
    if rows == [] then [] else RowItems(rows[0]) + Items(rows[1..])
  }

  /** Number of rows whose sleep time is appended. */
  function CountDelays(rows: seq<CommandRow>): nat
    requires Comparable(rows)
    decreases |rows|
  {
    if rows == [] then 0
    else (if IsPositive(rows[0].sleep).value then 1 else 0) + CountDelays(rows[1..])
  }

  /** Python's `lst * n`: `n` copies one after the other, none when `n <= 0`. */
  function Repeat<T>(s: seq<T>, n: int): (r: seq<T>)
    ensures n > 0 ==> s <= r
    ensures n <= 0 || s == [] ==> r == []
    decreases n
  {
    if n <= 0 then [] else s + Repeat(s, n - 1)
  }

  /** Appending a row to the input appends its items to the list. */
  lemma {:induction false} ItemsAppend(rows: seq<CommandRow>, row: CommandRow)
    requires Comparable(rows + [row])
    ensures Comparable(rows) && IsPositive(row.sleep).Some?
    ensures Items(rows + [row]) == Items(rows) + RowItems(row)
    decreases |rows|
  {
    assert forall i :: 0 <= i < |rows| ==> (rows + [row])[i] == rows[i];
    assert (rows + [row])[|rows|] == row;
    if rows == [] {
      assert (rows + [row])[1..] == [];
    } else {
      assert (rows + [row])[1..] == rows[1..] + [row];
      ItemsAppend(rows[1..], row);
    }
  }

  /** Each row contributes a label and a command, plus one item when its
      sleep time is positive. */
  lemma {:induction false} ItemsLength(rows: seq<CommandRow>)
    requires Comparable(rows)
    ensures |Items(rows)| == 2 * |rows| + CountDelays(rows)
    decreases |rows|
  {
    if rows != [] {
      ItemsLength(rows[1..]);
    }
  }

  /** The items of a row sit right where the rows before it end: its label,
      then its command, then its sleep time when positive. */
  lemma {:induction false} ItemsOfRow(rows: seq<CommandRow>, k: nat)
    requires Comparable(rows) && k < |rows|
    ensures var at := |Items(rows[..k])|;
      at + 2 <= |Items(rows)|
      && Items(rows)[at] == Label(rows[k].block, rows[k].step)
      && Items(rows)[at + 1] == Scalar(rows[k].command)
      && (IsPositive(rows[k].sleep).value ==>
            at + 2 < |Items(rows)| && Items(rows)[at + 2] == Scalar(rows[k].sleep))
    decreases k
  {
    if k > 0 {
      ItemsOfRow(rows[1..], k - 1);
      assert rows[1..][..k - 1] == rows[..k][1..];
      assert rows[..k][0] == rows[0];
    } else {
      assert rows[..0] == [];
    }
  }

  /** A repeated list is `n` times as long as the list. */
  lemma {:induction false} RepeatLength<T>(s: seq<T>, n: nat)
    ensures |Repeat(s, n)| == n * |s|
    decreases n
  {
    if n > 0 {
      RepeatLength(s, n - 1);
    }
  }

  /** Position `k` of the repeated list holds position `k % |s|` of the list:
      the copies are exact and in the original order. */
  lemma {:induction false} RepeatAt<T>(s: seq<T>, n: nat, k: nat)
    requires k < |Repeat(s, n)|
    ensures |s| > 0 && Repeat(s, n)[k] == s[k % |s|]
    decreases n
  {
    var rest := Repeat(s, n - 1);
    assert Repeat(s, n) == s + rest;
    if k >= |s| {
      assert Repeat(s, n)[k] == rest[k - |s|];
      RepeatAt(s, n - 1, k - |s|);
      ModShift(k, |s|);
    } else {
      assert Repeat(s, n)[k] == s[k];
      ModSmall(k, |s|);
    }
  }

  /** A position inside the first copy is its own remainder. */
  lemma ModSmall(k: int, m: int)
    requires 0 <= k < m
    ensures k % m == k
  {
  }

  /** Multiplying by a positive number keeps the sign and at least its size. */
  lemma MulBound(a: int, m: int)
    requires m > 0
    ensures a >= 1 ==> a * m >= m
    ensures a <= -1 ==> a * m <= -m
  {
    if a >= 1 {
      assert a * m == (a - 1) * m + m;
      assert (a - 1) * m >= 0;
    }
    if a <= -1 {
      assert a * m == (a + 1) * m - m;
      assert (a + 1) * m <= 0;
    }
  }

  /** Stepping back one whole copy keeps the position within a copy. */
  lemma ModShift(k: int, m: int)
    requires 0 < m <= k
    ensures (k - m) % m == k % m
  {
    var q, r := k / m, k % m;
    var x := k - m;
    var q2, r2 := x / m, x % m;
    assert k == q * m + r;
    assert x == q2 * m + r2;
    assert (q - 1 - q2) * m == r2 - r;
    MulBound(q - 1 - q2, m);
  }

  /** The loop of lines 49-67: build the list row by row, then repeat it.
      `None` is the TypeError raised by a text sleep cell, which ends the
      script before anything is sent. */
  method BuildCommandList(rows: seq<CommandRow>, repetitions: int) returns (r: Option<seq<Item>>)
    ensures r.None? <==> !Comparable(rows)
    ensures r.Some? ==> r.value == Repeat(Items(rows), repetitions)
  {
    var list: seq<Item> := [];
    var i := 0;
    while i < |rows|
      invariant 0 <= i <= |rows|
      invariant Comparable(rows[..i])
      invariant list == Items(rows[..i])
    {
      var row := rows[i];
      list := list + [Label(row.block, row.step)];
      list := list + [Scalar(row.command)];
      var positive := IsPositive(row.sleep);
      if positive.None? {
        return None;
      }
      if positive.value {
        list := list + [Scalar(row.sleep)];
      }
      assert rows[..i + 1] == rows[..i] + [row];
      ItemsAppend(rows[..i], row);
      i := i + 1;
    }
    assert rows[..i] == rows;
    r := Some(Repeat(list, repetitions));
  }
}
