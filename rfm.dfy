/**
 * RFM (recency, frequency, monetary) aggregation over a transaction table
 * (rfm.py). The table is a sequence of rows; dates are integer day numbers,
 * so `(today - max(date)).days` is an integer subtraction.
 */
module Rfm {
  import opened Wrappers

  /** User and checkout ids are compared only for equality; integers stand for any such key. */
  type UserId = int
  type CheckoutId = int

  /** One transaction row after the column projection and renaming of rfm.py:20-21. */
  datatype Row = Row(user: Option<UserId>, day: int, checkout: CheckoutId, price: real)

  /** One output row (without its key): the three aggregates of one user. */
  datatype Scores = Scores(recency: int, frequency: nat, monetary: real)

  /** The rows whose user id is not null: `data_df[data_df.user_id.notnull()]`. */
  function NonNull(rows: seq<Row>): seq<Row>
  {
    if |rows| == 0 then []
    else (if rows[0].user.Some? then [rows[0]] else []) + NonNull(rows[1..])
  }

  /** The group of user `u` formed by `groupby('user_id')`: that user's rows, in input order. */
  function OfUser(rows: seq<Row>, u: UserId): seq<Row>
  {
    if |rows| == 0 then []
    else (if rows[0].user == Some(u) then [rows[0]] else []) + OfUser(rows[1..], u)
  }

  /** The distinct non-null user ids of the table: the keys of `groupby('user_id')`. */
  function Users(rows: seq<Row>): set<UserId>
  {
    set i | 0 <= i < |rows| && rows[i].user.Some? :: rows[i].user.value
  }

  /** The latest day of a non-empty group: `pd.to_datetime(x).max()` (rfm.py:27). */
  function LastDay(group: seq<Row>): int
    requires |group| > 0
  {
    if |group| == 1 then group[0].day
    else
      var rest := LastDay(group[1..]);
      if group[0].day >= rest then group[0].day else rest
  }

  /** The distinct checkout ids of a group: the values `nunique` counts (rfm.py:32). */
  function Checkouts(group: seq<Row>): set<CheckoutId>
  {
    set i | 0 <= i < |group| :: group[i].checkout
  }

  /** The sum of the prices of a group, one term per row: `x.sum()` (rfm.py:37). */
  function Total(group: seq<Row>): real
  {
    if |group| == 0 then 0.0 else group[0].price + Total(group[1..])
  }

  /** recency_df (rfm.py:25-28): per user, `today` minus the user's latest day. */
  function Recencies(rows: seq<Row>, today: int): map<UserId, int>
  {
    var valid := NonNull(rows);
    map u | u in Users(valid) :: (GroupNonEmpty(valid, u); today - LastDay(OfUser(valid, u)))
  }

  /** frequency_df (rfm.py:30-33): per user, the number of distinct checkout ids. */
  function Frequencies(rows: seq<Row>): map<UserId, nat>
  {
    var valid := NonNull(rows);
    map u | u in Users(valid) :: |Checkouts(OfUser(valid, u))|
  }

  /** monetary_df (rfm.py:35-38): per user, the sum of the prices of all the user's rows. */
  function Monetaries(rows: seq<Row>): map<UserId, real>
  {
    var valid := NonNull(rows);
    map u | u in Users(valid) :: Total(OfUser(valid, u))
  }

  /** `pd.merge(left, right, on='user_id')`: pandas' default inner join on the key. */
  function Join<A, B>(left: map<UserId, A>, right: map<UserId, B>): (m: map<UserId, (A, B)>)
    ensures m.Keys == left.Keys * right.Keys
    ensures forall u :: u in m ==> m[u] == (left[u], right[u])
  {
    map u | u in left && u in right :: (left[u], right[u])
  }

  /** rfm (rfm.py:4-43): the RFM table, one entry per user. */
  function ComputeRfm(rows: seq<Row>, today: int): map<UserId, Scores>
  {
    var rf := Join(Recencies(rows, today), Frequencies(rows));
    var rfm := Join(rf, Monetaries(rows));
    map u | u in rfm :: Scores(rfm[u].0.0, rfm[u].0.1, rfm[u].1)
  }

  /** The number of rows of user `u` in the table. */
  function RowCount(rows: seq<Row>, u: UserId): nat
  {
    |OfUser(rows, u)|
  }

  /** The entry that one user's group yields. */
  function EntryOf(group: seq<Row>, today: int): Scores
    requires |group| > 0
  {
    Scores(today - LastDay(group), |Checkouts(group)|, Total(group))
  }

  /** Some row of user `u` carries checkout id `k`. */
  predicate HasCheckout(rows: seq<Row>, u: UserId, k: CheckoutId)
  {
    exists i :: 0 <= i < |rows| && rows[i].user == Some(u) && rows[i].checkout == k
  }

  // ---------------------------------------------------------------------------
  // The filters and the folds

  /** The non-null filter keeps exactly the rows with a user id. */
  lemma {:induction false} NonNullMembers(rows: seq<Row>)
    ensures forall x {:trigger x in NonNull(rows)} :: x in NonNull(rows) <==> x in rows && x.user.Some?
  {
    if |rows| > 0 {
      NonNullMembers(rows[1..]);
      assert rows == [rows[0]] + rows[1..];
    }
  }

  /** A user's group holds exactly the rows of that user. */
  lemma {:induction false} OfUserMembers(rows: seq<Row>, u: UserId)
    ensures forall x {:trigger x in OfUser(rows, u)} :: x in OfUser(rows, u) <==> x in rows && x.user == Some(u)
  {
    if |rows| > 0 {
      OfUserMembers(rows[1..], u);
      assert rows == [rows[0]] + rows[1..];
    }
  }

  /** The keys of the groupby are exactly the users with a non-empty group. */
  lemma GroupNonEmpty(rows: seq<Row>, u: UserId)
    ensures u in Users(rows) <==> |OfUser(rows, u)| > 0
  {
    OfUserMembers(rows, u);
    if u in Users(rows) {
      var i :| 0 <= i < |rows| && rows[i].user == Some(u);
      assert rows[i] in OfUser(rows, u);
    }
    if |OfUser(rows, u)| > 0 {
      var g := OfUser(rows, u);
      assert g[0] in g;
      var i :| 0 <= i < |rows| && rows[i] == g[0];
    }
  }

  /** The latest day is the day of one of the group's rows and no row is later. */
  lemma {:induction false} LastDayIsMax(group: seq<Row>)
    requires |group| > 0
    ensures exists i :: 0 <= i < |group| && group[i].day == LastDay(group)
    ensures forall i :: 0 <= i < |group| ==> group[i].day <= LastDay(group)
  {
    if |group| > 1 {
      var tail := group[1..];
      LastDayIsMax(tail);
      var j :| 0 <= j < |tail| && tail[j].day == LastDay(tail);
      assert group[j + 1] == tail[j];
      if group[0].day >= LastDay(tail) {
        assert group[0].day == LastDay(group);
      } else {
        assert group[j + 1].day == LastDay(group);
      }
      forall i | 1 <= i < |group| ensures group[i].day <= LastDay(group) {
        assert group[i] == tail[i - 1];
      }
    } else {
      assert group[0].day == LastDay(group);
    }
  }

  /** A group has no more distinct checkout ids than rows. */
  lemma {:induction false} CheckoutsBound(group: seq<Row>)
    ensures |Checkouts(group)| <= |group|
  {
    if |group| > 0 {
      var tail := group[1..];
      CheckoutsBound(tail);
      assert Checkouts(group) == {group[0].checkout} + Checkouts(tail) by {
        forall k ensures k in Checkouts(group) <==> k in {group[0].checkout} + Checkouts(tail) {
          if k in Checkouts(group) {
            var i :| 0 <= i < |group| && group[i].checkout == k;
            if i > 0 {
              assert tail[i - 1] == group[i];
            }
          }
          if k in Checkouts(tail) {
            var i :| 0 <= i < |tail| && tail[i].checkout == k;
            assert group[i + 1] == tail[i];
          }
        }
      }
    }
  }

  lemma {:induction false} NonNullAppend(a: seq<Row>, b: seq<Row>)
    ensures NonNull(a + b) == NonNull(a) + NonNull(b)
  {
    if |a| == 0 {
      assert a + b == b;
    } else {
      var head := if a[0].user.Some? then [a[0]] else [];
      assert (a + b)[0] == a[0];
      assert (a + b)[1..] == a[1..] + b;
      assert NonNull(a + b) == head + NonNull(a[1..] + b);
      NonNullAppend(a[1..], b);
      assert NonNull(a) == head + NonNull(a[1..]);
    }
  }

  lemma {:induction false} OfUserAppend(a: seq<Row>, b: seq<Row>, u: UserId)
    ensures OfUser(a + b, u) == OfUser(a, u) + OfUser(b, u)
  {
    if |a| == 0 {
      assert a + b == b;
    } else {
      var head := if a[0].user == Some(u) then [a[0]] else [];
      assert (a + b)[0] == a[0];
      assert (a + b)[1..] == a[1..] + b;
      assert OfUser(a + b, u) == head + OfUser(a[1..] + b, u);
      OfUserAppend(a[1..], b, u);
      assert OfUser(a, u) == head + OfUser(a[1..], u);
    }
  }

  lemma {:induction false} TotalAppend(a: seq<Row>, b: seq<Row>)
    ensures Total(a + b) == Total(a) + Total(b)
  {
    if |a| == 0 {
      assert a + b == b;
    } else {
      assert (a + b)[1..] == a[1..] + b;
      TotalAppend(a[1..], b);
    }
  }

  /** Selecting a user's rows after dropping null users is selecting them directly. */
  lemma {:induction false} OfUserOfNonNull(rows: seq<Row>, u: UserId)
    ensures OfUser(NonNull(rows), u) == OfUser(rows, u)
  {
    if |rows| > 0 {
      OfUserOfNonNull(rows[1..], u);
      var head := if rows[0].user.Some? then [rows[0]] else [];
      assert NonNull(rows) == head + NonNull(rows[1..]);
      OfUserAppend(head, NonNull(rows[1..]), u);
      assert OfUser(head, u) == if rows[0].user == Some(u) then [rows[0]] else [];
    }
  }

  /** Dropping the null rows does not change the set of user ids. */
  lemma UsersOfNonNull(rows: seq<Row>)
    ensures Users(NonNull(rows)) == Users(rows)
  {
    var valid := NonNull(rows);
    NonNullMembers(rows);
    forall u ensures u in Users(valid) <==> u in Users(rows) {
      if u in Users(valid) {
        var i :| 0 <= i < |valid| && valid[i].user == Some(u);
        assert valid[i] in valid;
        var j :| 0 <= j < |rows| && rows[j] == valid[i];
      }
      if u in Users(rows) {
        var i :| 0 <= i < |rows| && rows[i].user == Some(u);
        assert rows[i] in rows;
        assert rows[i] in valid;
        var j :| 0 <= j < |valid| && valid[j] == rows[i];
      }
    }
  }

  // ---------------------------------------------------------------------------
  // The merged table

  /** The three per-user tables all have the distinct non-null user ids as keys, so an inner
      and an outer merge of them agree (rfm.py:25-38). */
  lemma TablesShareKeys(rows: seq<Row>, today: int)
    ensures Recencies(rows, today).Keys == Users(rows)
    ensures Frequencies(rows).Keys == Users(rows)
    ensures Monetaries(rows).Keys == Users(rows)
  {
    UsersOfNonNull(rows);
  }

  /** The key set of the RFM table is the set of distinct non-null user ids: neither inner merge
      drops a user (rfm.py:40-41). */
  lemma RfmKeys(rows: seq<Row>, today: int)
    ensures ComputeRfm(rows, today).Keys == Users(rows)
  {
    TablesShareKeys(rows, today);
    var rec, freq, mon := Recencies(rows, today), Frequencies(rows), Monetaries(rows);
    var rfm := Join(Join(rec, freq), mon);
    assert rfm.Keys == Users(rows);
    assert ComputeRfm(rows, today).Keys == rfm.Keys;
  }

  /** The merged entry of a user is the triple of its three table entries. */
  lemma EntryOfMerge(rows: seq<Row>, today: int, u: UserId)
    requires u in Users(rows)
    ensures u in Recencies(rows, today) && u in Frequencies(rows) && u in Monetaries(rows)
    ensures u in ComputeRfm(rows, today)
    ensures ComputeRfm(rows, today)[u] == Scores(Recencies(rows, today)[u], Frequencies(rows)[u], Monetaries(rows)[u])
  {
    TablesShareKeys(rows, today);
    var rec, freq, mon := Recencies(rows, today), Frequencies(rows), Monetaries(rows);
    var rf := Join(rec, freq);
    assert rf[u] == (rec[u], freq[u]);
    var rfm := Join(rf, mon);
    assert rfm[u] == (rf[u], mon[u]);
  }

  /** Each table entry of a user is computed from that user's rows alone. */
  lemma TableEntries(rows: seq<Row>, today: int, u: UserId)
    requires u in Users(rows)
    ensures |OfUser(rows, u)| > 0
    ensures u in Recencies(rows, today) && u in Frequencies(rows) && u in Monetaries(rows)
    ensures Recencies(rows, today)[u] == today - LastDay(OfUser(rows, u))
    ensures Frequencies(rows)[u] == |Checkouts(OfUser(rows, u))|
    ensures Monetaries(rows)[u] == Total(OfUser(rows, u))
  {
    TablesShareKeys(rows, today);
    GroupNonEmpty(rows, u);
    OfUserOfNonNull(rows, u);
    UsersOfNonNull(rows);
  }

  /** The entry of each user is computed from that user's rows. */
  lemma ScoresOf(rows: seq<Row>, today: int, u: UserId)
    requires u in Users(rows)
    ensures |OfUser(rows, u)| > 0
    ensures u in ComputeRfm(rows, today)
    ensures ComputeRfm(rows, today)[u]
         == Scores(today - LastDay(OfUser(rows, u)), |Checkouts(OfUser(rows, u))|, Total(OfUser(rows, u)))
  {
    EntryOfMerge(rows, today, u);
    TableEntries(rows, today, u);
  }

  /** A user with a non-empty group has an entry, computed from that group alone. */
  lemma EntryFromGroup(rows: seq<Row>, today: int, u: UserId)
    requires |OfUser(rows, u)| > 0
    ensures u in ComputeRfm(rows, today)
    ensures ComputeRfm(rows, today)[u] == EntryOf(OfUser(rows, u), today)
  {
    GroupNonEmpty(rows, u);
    ScoresOf(rows, today, u);
  }

  // ---------------------------------------------------------------------------
  // The properties of the RFM table

  /** One entry per distinct non-null user id, and no other (rfm.py:25-41). */
  lemma OneEntryPerUser(rows: seq<Row>, today: int)
    ensures forall u :: u in ComputeRfm(rows, today) <==> exists i :: 0 <= i < |rows| && rows[i].user == Some(u)
    ensures |ComputeRfm(rows, today)| == |Users(rows)|
  {
    RfmKeys(rows, today);
    assert |ComputeRfm(rows, today)| == |ComputeRfm(rows, today).Keys|;
  }

  /** Recency is `today` minus the latest day among the user's rows; it is not clamped at zero (rfm.py:23-27). */
  lemma RecencyIsDaysSinceLast(rows: seq<Row>, today: int, u: UserId)
    requires u in ComputeRfm(rows, today)
    ensures forall i :: 0 <= i < |rows| && rows[i].user == Some(u) ==> rows[i].day <= today - ComputeRfm(rows, today)[u].recency
    ensures exists i :: 0 <= i < |rows| && rows[i].user == Some(u) && rows[i].day == today - ComputeRfm(rows, today)[u].recency
  {
    RfmKeys(rows, today);
    ScoresOf(rows, today, u);
    var g := OfUser(rows, u);
    LastDayIsMax(g);
    OfUserMembers(rows, u);
    forall i | 0 <= i < |rows| && rows[i].user == Some(u) ensures rows[i].day <= LastDay(g) {
      assert rows[i] in g;
      var j :| 0 <= j < |g| && g[j] == rows[i];
    }
    var j :| 0 <= j < |g| && g[j].day == LastDay(g);
    assert g[j] in g;
    var i :| 0 <= i < |rows| && rows[i] == g[j];
  }

  /** A row dated after `today` makes its user's recency negative. */
  lemma FutureRowGivesNegativeRecency(rows: seq<Row>, today: int, i: nat)
    requires i < |rows| && rows[i].user.Some? && rows[i].day > today
    ensures rows[i].user.value in ComputeRfm(rows, today)
    ensures ComputeRfm(rows, today)[rows[i].user.value].recency < 0
  {
    RfmKeys(rows, today);
    RecencyIsDaysSinceLast(rows, today, rows[i].user.value);
  }

  /** The distinct checkout ids of a user's group are those of the user's rows in the table. */
  lemma GroupCheckouts(rows: seq<Row>, u: UserId)
    ensures Checkouts(OfUser(rows, u)) == set i | 0 <= i < |rows| && rows[i].user == Some(u) :: rows[i].checkout
  {
    var g := OfUser(rows, u);
    var direct := set i | 0 <= i < |rows| && rows[i].user == Some(u) :: rows[i].checkout;
    OfUserMembers(rows, u);
    forall k ensures k in Checkouts(g) <==> k in direct {
      if k in Checkouts(g) {
        var j :| 0 <= j < |g| && g[j].checkout == k;
        assert g[j] in g;
        var i :| 0 <= i < |rows| && rows[i] == g[j];
      }
      if k in direct {
        var i :| 0 <= i < |rows| && rows[i].user == Some(u) && rows[i].checkout == k;
        assert rows[i] in g;
        var j :| 0 <= j < |g| && g[j] == rows[i];
      }
    }
  }

  /** Frequency is the number of distinct checkout ids of the user (`nunique`), between 1 and the
      user's row count (rfm.py:32). */
  lemma FrequencyIsDistinctCheckouts(rows: seq<Row>, today: int, u: UserId)
    requires u in ComputeRfm(rows, today)
    ensures ComputeRfm(rows, today)[u].frequency
         == |set i | 0 <= i < |rows| && rows[i].user == Some(u) :: rows[i].checkout|
    ensures 1 <= ComputeRfm(rows, today)[u].frequency <= RowCount(rows, u)
  {
    RfmKeys(rows, today);
    ScoresOf(rows, today, u);
    GroupCheckouts(rows, u);
    var g := OfUser(rows, u);
    CheckoutsBound(g);
    assert g[0].checkout in Checkouts(g);
  }

  /** Monetary is the sum of the prices of all the user's rows, one term per row (rfm.py:37). */
  lemma MonetaryIsRowSum(rows: seq<Row>, today: int, u: UserId)
    requires u in ComputeRfm(rows, today)
    ensures ComputeRfm(rows, today)[u].monetary == Total(OfUser(rows, u))
  {
    RfmKeys(rows, today);
    ScoresOf(rows, today, u);
  }

  // ---------------------------------------------------------------------------
  // Appending one row: an incremental definition of the same table

  lemma GroupAppend(rows: seq<Row>, x: Row, u: UserId)
    ensures OfUser(rows + [x], u) == if x.user == Some(u) then OfUser(rows, u) + [x] else OfUser(rows, u)
  {
    OfUserAppend(rows, [x], u);
    assert [x][1..] == [];
  }

  lemma LastDayAppend(group: seq<Row>, x: Row)
    requires |group| > 0
    ensures LastDay(group + [x]) == if x.day > LastDay(group) then x.day else LastDay(group)
  {
    var g := group + [x];
    LastDayIsMax(g);
    LastDayIsMax(group);
    var j :| 0 <= j < |g| && g[j].day == LastDay(g);
    var k :| 0 <= k < |group| && group[k].day == LastDay(group);
    assert g[k] == group[k];
    assert g[|group|] == x;
    if j < |group| {
      assert g[j] == group[j];
    }
  }

  lemma CheckoutsAppend(group: seq<Row>, x: Row)
    ensures Checkouts(group + [x]) == Checkouts(group) + {x.checkout}
  {
    var g := group + [x];
    forall k ensures k in Checkouts(g) <==> k in Checkouts(group) + {x.checkout} {
      if k in Checkouts(g) {
        var j :| 0 <= j < |g| && g[j].checkout == k;
        if j < |group| {
          assert g[j] == group[j];
        }
      }
      if k in Checkouts(group) {
        var j :| 0 <= j < |group| && group[j].checkout == k;
        assert g[j] == group[j];
      }
      assert g[|group|] == x;
    }
  }

  lemma UsersAppend(rows: seq<Row>, x: Row)
    ensures Users(rows + [x]) == Users(rows) + (if x.user.Some? then {x.user.value} else {})
  {
    var r := rows + [x];
    forall v ensures v in Users(r) <==> v in Users(rows) + (if x.user.Some? then {x.user.value} else {}) {
      if v in Users(r) {
        var i :| 0 <= i < |r| && r[i].user == Some(v);
        if i < |rows| {
          assert r[i] == rows[i];
        }
      }
      if v in Users(rows) {
        var i :| 0 <= i < |rows| && rows[i].user == Some(v);
        assert r[i] == rows[i];
      }
      assert r[|rows|] == x;
    }
  }

  /** Appending a row of user `u` adds `u` to the key set and nothing else. */
  lemma AppendRowKeys(rows: seq<Row>, x: Row, today: int)
    requires x.user.Some?
    ensures ComputeRfm(rows + [x], today).Keys == ComputeRfm(rows, today).Keys + {x.user.value}
  {
    RfmKeys(rows, today);
    RfmKeys(rows + [x], today);
    UsersAppend(rows, x);
  }

  /** Appending a row of one user leaves every other user's entry as it was. */
  lemma AppendRowOtherUser(rows: seq<Row>, x: Row, today: int, v: UserId)
    requires x.user != Some(v) && v in ComputeRfm(rows, today)
    ensures v in ComputeRfm(rows + [x], today)
    ensures ComputeRfm(rows + [x], today)[v] == ComputeRfm(rows, today)[v]
  {
    RfmKeys(rows, today);
    GroupNonEmpty(rows, v);
    GroupAppend(rows, x, v);
    EntryFromGroup(rows, today, v);
    EntryFromGroup(rows + [x], today, v);
  }

  /** The entry of a group extended by one row, in terms of the entry of the group. */
  lemma EntryAppend(group: seq<Row>, x: Row, today: int)
    requires |group| > 0
    ensures var before, after := EntryOf(group, today), EntryOf(group + [x], today);
      && after.recency == (if today - x.day < before.recency then today - x.day else before.recency)
      && after.frequency == (if x.checkout in Checkouts(group) then before.frequency else before.frequency + 1)
      && after.monetary == before.monetary + x.price
  {
    LastDayAppend(group, x);
    CheckoutsAppend(group, x);
    var ks := Checkouts(group);
    if x.checkout in ks {
      assert ks + {x.checkout} == ks;
    } else {
      assert |ks + {x.checkout}| == |ks| + 1;
    }
    TotalAppend(group, [x]);
    assert Total([x]) == x.price + Total([]);
  }

  /** The entry of a one-row group. */
  lemma SingletonEntry(x: Row, today: int)
    ensures EntryOf([x], today) == Scores(today - x.day, 1, x.price)
  {
    forall k ensures k in Checkouts([x]) <==> k == x.checkout {
      if k == x.checkout {
        assert [x][0].checkout == k;
      }
    }
    assert Checkouts([x]) == {x.checkout};
    assert Total([x]) == x.price + Total([]);
  }

  /** The first row of a user creates its entry: recency from that row's day, one checkout, its price. */
  lemma AppendRowNewUser(rows: seq<Row>, x: Row, today: int)
    requires x.user.Some? && x.user.value !in ComputeRfm(rows, today)
    ensures x.user.value in ComputeRfm(rows + [x], today)
    ensures ComputeRfm(rows + [x], today)[x.user.value] == Scores(today - x.day, 1, x.price)
  {
    var u := x.user.value;
    assert OfUser(rows + [x], u) == [x] by {
      RfmKeys(rows, today);
      GroupNonEmpty(rows, u);
      GroupAppend(rows, x, u);
    }
    EntryFromGroup(rows + [x], today, u);
    SingletonEntry(x, today);
  }

  /** A further row of a known user: recency follows the later day, frequency grows only for a
      checkout id the user has not had before, and monetary always adds the row's price. */
  lemma AppendRowKnownUser(rows: seq<Row>, x: Row, today: int)
    requires x.user.Some? && x.user.value in ComputeRfm(rows, today)
    ensures x.user.value in ComputeRfm(rows + [x], today)
    ensures var before, after := ComputeRfm(rows, today)[x.user.value], ComputeRfm(rows + [x], today)[x.user.value];
      && after.recency == (if today - x.day < before.recency then today - x.day else before.recency)
      && after.frequency == (if HasCheckout(rows, x.user.value, x.checkout) then before.frequency else before.frequency + 1)
      && after.monetary == before.monetary + x.price
  {
    var u := x.user.value;
    var g := OfUser(rows, u);
    assert |g| > 0 by {
      RfmKeys(rows, today);
      GroupNonEmpty(rows, u);
    }
    assert OfUser(rows + [x], u) == g + [x] by {
      GroupAppend(rows, x, u);
    }
    assert HasCheckout(rows, u, x.checkout) <==> x.checkout in Checkouts(g) by {
      GroupCheckouts(rows, u);
    }
    EntryFromGroup(rows, today, u);
    EntryFromGroup(rows + [x], today, u);
    EntryAppend(g, x, today);
  }

  /** A repeated checkout id leaves frequency unchanged while its price still adds to monetary:
      `nunique` de-duplicates, the row-wise `sum` does not (rfm.py:32, rfm.py:37). */
  lemma RepeatedCheckoutAsymmetry(rows: seq<Row>, x: Row, today: int)
    requires x.user.Some? && HasCheckout(rows, x.user.value, x.checkout)
    ensures x.user.value in ComputeRfm(rows, today) && x.user.value in ComputeRfm(rows + [x], today)
    ensures ComputeRfm(rows + [x], today)[x.user.value].frequency == ComputeRfm(rows, today)[x.user.value].frequency
    ensures ComputeRfm(rows + [x], today)[x.user.value].monetary == ComputeRfm(rows, today)[x.user.value].monetary + x.price
  {
    RfmKeys(rows, today);
    var i :| 0 <= i < |rows| && rows[i].user == x.user && rows[i].checkout == x.checkout;
    AppendRowKnownUser(rows, x, today);
  }

  // ---------------------------------------------------------------------------
  // Order independence and null rows

  /** A group's occurrence counts: every row of the user, as often as in the table. */
  lemma {:induction false} OfUserCounts(rows: seq<Row>, u: UserId)
    ensures forall x :: multiset(OfUser(rows, u))[x] == if x.user == Some(u) then multiset(rows)[x] else 0
  {
    if |rows| > 0 {
      assert rows == [rows[0]] + rows[1..];
      OfUserCounts(rows[1..], u);
    }
  }

  /** The latest day depends only on which rows a group holds. */
  lemma LastDaySameRows(g: seq<Row>, h: seq<Row>)
    requires |g| > 0 && |h| > 0
    requires multiset(g) == multiset(h)
    ensures LastDay(g) == LastDay(h)
  {
    LastDayIsMax(g);
    LastDayIsMax(h);
    var i :| 0 <= i < |g| && g[i].day == LastDay(g);
    var j :| 0 <= j < |h| && h[j].day == LastDay(h);
    assert g[i] in multiset(h);
    var j' :| 0 <= j' < |h| && h[j'] == g[i];
    assert h[j] in multiset(g);
    var i' :| 0 <= i' < |g| && g[i'] == h[j];
  }

  /** The distinct checkouts depend only on which rows a group holds. */
  lemma CheckoutsSameRows(g: seq<Row>, h: seq<Row>)
    requires multiset(g) == multiset(h)
    ensures Checkouts(g) == Checkouts(h)
  {
    forall k ensures k in Checkouts(g) <==> k in Checkouts(h) {
      if k in Checkouts(g) {
        var i :| 0 <= i < |g| && g[i].checkout == k;
        assert g[i] in multiset(h);
        var j :| 0 <= j < |h| && h[j] == g[i];
      }
      if k in Checkouts(h) {
        var j :| 0 <= j < |h| && h[j].checkout == k;
        assert h[j] in multiset(g);
        var i :| 0 <= i < |g| && g[i] == h[j];
      }
    }
  }

  /** Taking one row out of a sum. */
  lemma TotalRemove(s: seq<Row>, j: nat)
    requires j < |s|
    ensures Total(s) == s[j].price + Total(s[..j] + s[j + 1..])
  {
    assert s == s[..j] + ([s[j]] + s[j + 1..]);
    TotalCons(s[..j], s[j], s[j + 1..]);
  }

  /** A row between two parts of a sequence adds its price to the sum of the parts. */
  lemma TotalCons(p: seq<Row>, x: Row, q: seq<Row>)
    ensures Total(p + ([x] + q)) == x.price + Total(p + q)
  {
    TotalAppend(p, [x] + q);
    TotalAppend(p, q);
    assert ([x] + q)[1..] == q;
  }

  /** Taking one row out of a sequence takes one occurrence out of its multiset. */
  lemma MultisetRemove(s: seq<Row>, j: nat)
    requires j < |s|
    ensures multiset(s[..j] + s[j + 1..]) == multiset(s) - multiset{s[j]}
  {
    assert s == s[..j] + [s[j]] + s[j + 1..];
  }

  /** The row-wise sum depends only on the multiset of rows. */
  lemma {:induction false} TotalPermutation(a: seq<Row>, b: seq<Row>)
    requires multiset(a) == multiset(b)
    ensures Total(a) == Total(b)
    decreases |a|
  {
    if |a| == 0 {
      assert |b| == |multiset(b)| == 0;
    } else {
      assert a[0] in multiset(b);
      var j :| 0 <= j < |b| && b[j] == a[0];
      var rest := b[..j] + b[j + 1..];
      MultisetRemove(b, j);
      MultisetRemove(a, 0);
      assert a[..0] + a[1..] == a[1..];
      TotalPermutation(a[1..], rest);
      TotalRemove(b, j);
      TotalRemove(a, 0);
    }
  }

  /** Tables whose user groups hold the same rows, as often, have the same RFM table. */
  lemma SameGroupsSameTable(a: seq<Row>, b: seq<Row>, today: int)
    requires forall u :: multiset(OfUser(a, u)) == multiset(OfUser(b, u))
    ensures ComputeRfm(a, today) == ComputeRfm(b, today)
  {
    RfmKeys(a, today);
    RfmKeys(b, today);
    forall u ensures u in Users(a) <==> u in Users(b) {
      GroupNonEmpty(a, u);
      GroupNonEmpty(b, u);
      assert |multiset(OfUser(a, u))| == |multiset(OfUser(b, u))|;
    }
    forall u | u in Users(a) ensures ComputeRfm(a, today)[u] == ComputeRfm(b, today)[u] {
      GroupNonEmpty(a, u);
      GroupNonEmpty(b, u);
      EntryFromGroup(a, today, u);
      EntryFromGroup(b, today, u);
      var g, h := OfUser(a, u), OfUser(b, u);
      LastDaySameRows(g, h);
      CheckoutsSameRows(g, h);
      TotalPermutation(g, h);
    }
  }

  /** Permuting the input rows leaves the RFM table unchanged: max, distinct count and sum do not
      depend on row order (rfm.py:27, rfm.py:32, rfm.py:37). */
  lemma PermutationInvariant(a: seq<Row>, b: seq<Row>, today: int)
    requires multiset(a) == multiset(b)
    ensures ComputeRfm(a, today) == ComputeRfm(b, today)
  {
    forall u ensures multiset(OfUser(a, u)) == multiset(OfUser(b, u)) {
      OfUserCounts(a, u);
      OfUserCounts(b, u);
    }
    SameGroupsSameTable(a, b, today);
  }

  /** A row whose user id is null contributes to no entry, wherever it stands (rfm.py:25, 30, 35). */
  lemma NullRowIgnored(a: seq<Row>, n: Row, b: seq<Row>, today: int)
    requires n.user.None?
    ensures ComputeRfm(a + [n] + b, today) == ComputeRfm(a + b, today)
  {
    forall u ensures multiset(OfUser(a + [n] + b, u)) == multiset(OfUser(a + b, u)) {
      OfUserAppend(a + [n], b, u);
      OfUserAppend(a, [n], u);
      OfUserAppend(a, b, u);
      assert OfUser([n], u) == [];
      assert OfUser(a, u) + [] == OfUser(a, u);
    }
    SameGroupsSameTable(a + [n] + b, a + b, today);
  }

  /** An empty table, or one whose user ids are all null, gives an empty RFM table (rfm.py:25-41). */
  lemma NoUsersNoEntries(rows: seq<Row>, today: int)
    requires forall i :: 0 <= i < |rows| ==> rows[i].user.None?
    ensures ComputeRfm(rows, today) == map[]
  {
    RfmKeys(rows, today);
    assert Users(rows) == {};
  }

  /** A user with a single row has frequency 1, that row's price as monetary, and recency from that row's day. */
  lemma SingleRowUser(rows: seq<Row>, today: int, i: nat)
    requires i < |rows| && rows[i].user.Some? && RowCount(rows, rows[i].user.value) == 1
    ensures rows[i].user.value in ComputeRfm(rows, today)
    ensures ComputeRfm(rows, today)[rows[i].user.value] == Scores(today - rows[i].day, 1, rows[i].price)
  {
    var u := rows[i].user.value;
    var g := OfUser(rows, u);
    assert g == [rows[i]] by {
      OfUserMembers(rows, u);
      assert rows[i] in g;
    }
    EntryFromGroup(rows, today, u);
    SingletonEntry(rows[i], today);
  }
}
