/**
 * Grouped sums: `df.groupby(field)['amount'].sum()`. pandas sorts the group
 * keys, so a rollup is a list of (key, total) rows in ascending key order, one
 * row per distinct key present, each total the sum of the amounts with that key.
 */
module Rollup {
  import opened Text
  import opened Ledger

  datatype RollupRow = RollupRow(key: string, total: int)

  /** Keys strictly ascending, hence distinct. */
  predicate KeysAscending(rows: seq<RollupRow>) {
    forall i, j :: 0 <= i < j < |rows| ==> StrLt(rows[i].key, rows[j].key)
  }

  function Keys(rows: seq<RollupRow>): set<string> {
    set r | r in rows :: r.key
  }

  /** The keys present in a list of records. */
  function KeysOf(txs: seq<Transaction>, g: GroupKey): set<string> {
    set t | t in txs :: KeyOf(t, g)
  }

  /** The sum of the totals filed under `key`. */
  function TotalFor(rows: seq<RollupRow>, key: string): int {
    if rows == [] then 0
    else (if rows[0].key == key then rows[0].total else 0) + TotalFor(rows[1..], key)
  }

  function SumTotals(rows: seq<RollupRow>): int {
    if rows == [] then 0 else rows[0].total + SumTotals(rows[1..])
  }

  /** Files `amount` under `key`: adds it to that key's row, or inserts a new
      row at the place its key belongs. */
  function AddTo(rows: seq<RollupRow>, key: string, amount: int): (r: seq<RollupRow>)
    ensures |rows| <= |r| <= |rows| + 1
    ensures rows != [] ==> r[0].key == key || r[0] == rows[0]
  {
    if rows == [] then [RollupRow(key, amount)]
    else if rows[0].key == key then [RollupRow(key, rows[0].total + amount)] + rows[1..]
    else if StrLt(key, rows[0].key) then [RollupRow(key, amount)] + rows
    else [rows[0]] + AddTo(rows[1..], key, amount)
  }

  /** The rollup of `txs` grouped by `g`, filing the records in ledger order. */
  function Rollup(txs: seq<Transaction>, g: GroupKey): (r: seq<RollupRow>)
    ensures |r| <= |txs|
    ensures r == [] <==> txs == []
  {
    if txs == [] then []
    else AddTo(Rollup(txs[..|txs| - 1], g), KeyOf(txs[|txs| - 1], g), txs[|txs| - 1].amount)
  }

  lemma KeysCons(r: RollupRow, rows: seq<RollupRow>)
    ensures Keys([r] + rows) == {r.key} + Keys(rows)
  {
    var l := [r] + rows;
    forall x | x in l ensures x == r || x in rows {
      var i :| 0 <= i < |l| && l[i] == x;
      if i > 0 { assert rows[i - 1] == x; }
    }
    forall x | x in rows ensures x in l {
      var i :| 0 <= i < |rows| && rows[i] == x;
      assert l[i + 1] == x;
    }
  }

  lemma {:induction false} AddToKeys(rows: seq<RollupRow>, key: string, amount: int)
    ensures Keys(AddTo(rows, key, amount)) == Keys(rows) + {key}
  {
    if rows == [] {
      assert Keys([RollupRow(key, amount)]) == {key} by {
        KeysCons(RollupRow(key, amount), []);
      }
    } else {
      assert rows == [rows[0]] + rows[1..];
      KeysCons(rows[0], rows[1..]);
      if rows[0].key == key {
        KeysCons(RollupRow(key, rows[0].total + amount), rows[1..]);
      } else if StrLt(key, rows[0].key) {
        KeysCons(RollupRow(key, amount), rows);
      } else {
        AddToKeys(rows[1..], key, amount);
        KeysCons(rows[0], AddTo(rows[1..], key, amount));
      }
    }
  }

  lemma {:induction false} AddToAscending(rows: seq<RollupRow>, key: string, amount: int)
    requires KeysAscending(rows)
    ensures KeysAscending(AddTo(rows, key, amount))
  {
    if rows == [] || rows[0].key == key {
    } else if StrLt(key, rows[0].key) {
      var r := AddTo(rows, key, amount);
      forall j | 1 <= j < |r| ensures StrLt(key, r[j].key) {
        if j > 1 {
          StrLtTransitive(key, rows[0].key, rows[j - 1].key);
        }
      }
    } else {
      StrLtTotal(key, rows[0].key);
      var tail := AddTo(rows[1..], key, amount);
      AddToAscending(rows[1..], key, amount);
      TailAboveHead(rows, key, amount);
      AscendingCons(rows[0], tail);
    }
  }

  /** Filing a key greater than the first row's key into the rest of the rows
      keeps every key there above the first row's key. */
  lemma TailAboveHead(rows: seq<RollupRow>, key: string, amount: int)
    requires rows != [] && KeysAscending(rows) && StrLt(rows[0].key, key)
    ensures forall r :: r in AddTo(rows[1..], key, amount) ==> StrLt(rows[0].key, r.key)
  {
    var tail := AddTo(rows[1..], key, amount);
    AddToKeys(rows[1..], key, amount);
    forall r | r in tail ensures StrLt(rows[0].key, r.key) {
      assert r.key in Keys(tail);
      if r.key != key {
        var j :| 0 <= j < |rows[1..]| && rows[1..][j].key == r.key;
        assert rows[j + 1].key == r.key;
      }
    }
  }

  lemma AscendingCons(head: RollupRow, tail: seq<RollupRow>)
    requires KeysAscending(tail)
    requires forall r :: r in tail ==> StrLt(head.key, r.key)
    ensures KeysAscending([head] + tail)
  {
    var res := [head] + tail;
    forall i, j | 0 <= i < j < |res| ensures StrLt(res[i].key, res[j].key) {
      if i == 0 {
        assert res[j] in tail;
      } else {
        assert res[i] == tail[i - 1] && res[j] == tail[j - 1];
      }
    }
  }

  lemma {:induction false} AddToTotal(rows: seq<RollupRow>, key: string, amount: int, k: string)
    ensures TotalFor(AddTo(rows, key, amount), k) == TotalFor(rows, k) + (if key == k then amount else 0)
  {
    if rows != [] {
      if rows[0].key == key {
        assert AddTo(rows, key, amount)[1..] == rows[1..];
      } else if StrLt(key, rows[0].key) {
        assert AddTo(rows, key, amount)[1..] == rows;
      } else {
        AddToTotal(rows[1..], key, amount, k);
        assert AddTo(rows, key, amount)[1..] == AddTo(rows[1..], key, amount);
      }
    } else {
      assert AddTo(rows, key, amount)[1..] == [];
    }
  }

  lemma {:induction false} AddToSum(rows: seq<RollupRow>, key: string, amount: int)
    ensures SumTotals(AddTo(rows, key, amount)) == SumTotals(rows) + amount
  {
    if rows != [] {
      if rows[0].key == key {
        assert AddTo(rows, key, amount)[1..] == rows[1..];
      } else if StrLt(key, rows[0].key) {
        assert AddTo(rows, key, amount)[1..] == rows;
      } else {
        AddToSum(rows[1..], key, amount);
        assert AddTo(rows, key, amount)[1..] == AddTo(rows[1..], key, amount);
      }
    } else {
      assert AddTo(rows, key, amount)[1..] == [];
    }
  }

  /** One row per distinct key present, in ascending key order, and the totals
      add up to the sum of all amounts. */
  lemma {:induction false} RollupShape(txs: seq<Transaction>, g: GroupKey)
    ensures KeysAscending(Rollup(txs, g))
    ensures Keys(Rollup(txs, g)) == KeysOf(txs, g)
    ensures SumTotals(Rollup(txs, g)) == SumAmount(txs)
  {
    if txs != [] {
      var init := txs[..|txs| - 1];
      var t := txs[|txs| - 1];
      RollupShape(init, g);
      AddToAscending(Rollup(init, g), KeyOf(t, g), t.amount);
      AddToKeys(Rollup(init, g), KeyOf(t, g), t.amount);
      AddToSum(Rollup(init, g), KeyOf(t, g), t.amount);
      KeysOfSnoc(txs, g);
    }
  }

  lemma KeysOfSnoc(txs: seq<Transaction>, g: GroupKey)
    requires txs != []
    ensures KeysOf(txs, g) == KeysOf(txs[..|txs| - 1], g) + {KeyOf(txs[|txs| - 1], g)}
  {
    assert txs == txs[..|txs| - 1] + [txs[|txs| - 1]];
  }

  /** The total filed under each key is the sum of the amounts of exactly the
      records with that key. */
  lemma {:induction false} RollupTotals(txs: seq<Transaction>, g: GroupKey, k: string)
    ensures TotalFor(Rollup(txs, g), k) == SumAmount(Select(txs, WithKey(g, k)))
  {
    if txs != [] {
      var init := txs[..|txs| - 1];
      var t := txs[|txs| - 1];
      var before := Rollup(init, g);
      assert Rollup(txs, g) == AddTo(before, KeyOf(t, g), t.amount);
      RollupTotals(init, g, k);
      AddToTotal(before, KeyOf(t, g), t.amount, k);
      SelectLast(txs, WithKey(g, k));
    }
  }

  /** A key that is not filed has total 0. */
  lemma {:induction false} TotalForAbsent(rows: seq<RollupRow>, k: string)
    requires k !in Keys(rows)
    ensures TotalFor(rows, k) == 0
  {
    if rows != [] {
      assert rows[0] in rows;
      assert Keys(rows[1..]) <= Keys(rows) by {
        forall r | r in rows[1..] ensures r in rows { }
      }
      TotalForAbsent(rows[1..], k);
    }
  }

  /** With distinct keys, a row's total is everything filed under its key. */
  lemma {:induction false} RowIsTotalFor(rows: seq<RollupRow>, i: nat)
    requires KeysAscending(rows) && i < |rows|
    ensures rows[i].total == TotalFor(rows, rows[i].key)
  {
    if i == 0 {
      forall r | r in rows[1..] ensures r.key != rows[0].key {
        var j :| 0 <= j < |rows[1..]| && rows[1..][j] == r;
        assert StrLt(rows[0].key, rows[j + 1].key);
        StrLtIrreflexive(rows[0].key);
      }
      TotalForAbsent(rows[1..], rows[0].key);
    } else {
      assert StrLt(rows[0].key, rows[i].key);
      StrLtIrreflexive(rows[0].key);
      assert KeysAscending(rows[1..]) by {
        forall a, b | 0 <= a < b < |rows[1..]| ensures StrLt(rows[1..][a].key, rows[1..][b].key) {
          assert rows[1..][a] == rows[a + 1] && rows[1..][b] == rows[b + 1];
        }
      }
      RowIsTotalFor(rows[1..], i - 1);
    }
  }

  /** Each rollup row holds the sum of the amounts of the records with its key. */
  lemma RollupRowTotal(txs: seq<Transaction>, g: GroupKey, i: nat)
    requires i < |Rollup(txs, g)|
    ensures Rollup(txs, g)[i].total == SumAmount(Select(txs, WithKey(g, Rollup(txs, g)[i].key)))
  {
    RollupShape(txs, g);
    RowIsTotalFor(Rollup(txs, g), i);
    RollupTotals(txs, g, Rollup(txs, g)[i].key);
  }
}
