/** The query options that one pull sends with its getItems request: a page limit, an
    optional sort, the task's nested filter flattened into `filters[column][operator]`
    keys, and the lock-owner constraint. */
module Query {
  import opened Values

  /** One `operator: value` entry of a column's filter mapping. */
  datatype Criterion = Criterion(operator: string, value: Json)

  /** One `column: {operator: value, ...}` entry of the task's filter mapping. */
  datatype ColumnFilter = ColumnFilter(column: string, criteria: seq<Criterion>)

  /** The nested filter mapping, in the mapping's iteration order. */
  type Filter = seq<ColumnFilter>

  /** The configuration a task stores when it is created. */
  datatype PullingOptions = PullingOptions(
    appId: Json,
    collectionId: Json,
    filter: Option<Filter>,
    sort: Json,
    pullingInterval: int,
    pagelimit: int,
    includeLocked: bool)

  /** A (column, operator, value) triple as the nested filter loops visit it. */
  datatype Condition = Condition(column: string, operator: string, value: Json)

  const LimitKey: string := "limit"
  const SortKey: string := "sort"
  const LockOwnerKey: string := "unlockedOrLockedBy"
  const FilterPrefix: string := "filters["

  /** The query parameter name of one filter criterion. */
  function FilterKey(column: string, operator: string): string {
    FilterPrefix + column + "][" + operator + "]"
  }

  function KeyOf(c: Condition): string {
    FilterKey(c.column, c.operator)
  }

  predicate IsFilterKey(k: string) {
    |FilterPrefix| <= |k| && k[..|FilterPrefix|] == FilterPrefix
  }

  /** The criteria of one column, as triples, in order. */
  function ColumnConditions(cf: ColumnFilter): seq<Condition> {
    seq(|cf.criteria|, j requires 0 <= j < |cf.criteria| =>
      Condition(cf.column, cf.criteria[j].operator, cf.criteria[j].value))
  }

  /** All criteria of the filter, column by column, in iteration order. */
  function Conditions(f: Filter): seq<Condition>
    decreases |f|
  {
    if f == [] then [] else Conditions(f[..|f| - 1]) + ColumnConditions(f[|f| - 1])
  }

  /** The map after writing each condition in turn; a later write to a key replaces an earlier one. */
  function Assign(m: map<string, Json>, cs: seq<Condition>): map<string, Json>
    decreases |cs|
  {
    if cs == [] then m
    else
      var last := cs[|cs| - 1];
      Assign(m, cs[..|cs| - 1])[KeyOf(last) := last.value]
  }

  function KeysOf(cs: seq<Condition>): set<string> {
    set c | c in cs :: KeyOf(c)
  }

  /** The filter keys the options receive. */
  function FilterKeys(filter: Option<Filter>): set<string> {
    match filter
    case None => {}
    case Some(f) => KeysOf(Conditions(f))
  }

  /** The options map that a pull builds for a task. */
  function QueryOptions(o: PullingOptions, sailorId: string): map<string, Json> {
    var base := map[LimitKey := JNum(o.pagelimit)];
    var sorted := if o.sort != JNull then base[SortKey := o.sort] else base;
    var filtered := match o.filter
      case None => sorted
      case Some(f) => Assign(sorted, Conditions(f));
    if !o.includeLocked then filtered[LockOwnerKey := JStr(sailorId)] else filtered
  }

  /** Builds the options in place, as a pull does before it fetches. */
  method BuildOptions(o: PullingOptions, sailorId: string) returns (options: map<string, Json>)
    ensures options == QueryOptions(o, sailorId)
  {
    options := map[LimitKey := JNum(o.pagelimit)];
    if o.sort != JNull {
      options := options[SortKey := o.sort];
    }
    if o.filter.Some? {
      var f := o.filter.value;
      ghost var start := options;
      var i := 0;
      while i < |f|
        invariant 0 <= i <= |f|
        invariant options == Assign(start, Conditions(f[..i]))
      {
        var cf := f[i];
        ghost var done := Conditions(f[..i]);
        var j := 0;
        assert done + ColumnConditions(cf)[..0] == done;
        while j < |cf.criteria|
          invariant 0 <= j <= |cf.criteria|
          invariant options == Assign(start, done + ColumnConditions(cf)[..j])
        {
          ghost var c := ColumnConditions(cf)[j];
          assert ColumnConditions(cf)[..j + 1] == ColumnConditions(cf)[..j] + [c];
          AssignStep(start, done + ColumnConditions(cf)[..j], c);
          assert done + ColumnConditions(cf)[..j + 1] == done + ColumnConditions(cf)[..j] + [c];
          options := options[FilterKey(cf.column, cf.criteria[j].operator) := cf.criteria[j].value];
          j := j + 1;
        }
        ConditionsStep(f, i);
        assert ColumnConditions(cf)[..j] == ColumnConditions(cf);
        i := i + 1;
      }
      assert f[..i] == f;
    }
    if !o.includeLocked {
      options := options[LockOwnerKey := JStr(sailorId)];
    }
  }

  // ---------------------------------------------------------------------------
  // Writing conditions into a map

  lemma AssignStep(m: map<string, Json>, cs: seq<Condition>, c: Condition)
    ensures Assign(m, cs + [c]) == Assign(m, cs)[KeyOf(c) := c.value]
  {
    assert (cs + [c])[..|cs|] == cs;
  }

  lemma ConditionsStep(f: Filter, i: nat)
    requires i < |f|
    ensures Conditions(f[..i + 1]) == Conditions(f[..i]) + ColumnConditions(f[i])
  {
    assert f[..i + 1][..i] == f[..i];
  }

  lemma {:induction false} AssignKeys(m: map<string, Json>, cs: seq<Condition>)
    ensures Assign(m, cs).Keys == m.Keys + KeysOf(cs)
    decreases |cs|
  {
    if cs != [] {
      var p := cs[..|cs| - 1];
      AssignKeys(m, p);
      assert cs == p + [cs[|cs| - 1]];
      assert KeysOf(cs) == KeysOf(p) + {KeyOf(cs[|cs| - 1])};
    }
  }

  /** A key that no condition writes keeps its value. */
  lemma {:induction false} AssignElsewhere(m: map<string, Json>, cs: seq<Condition>, k: string)
    requires k !in KeysOf(cs)
    ensures k in Assign(m, cs) <==> k in m
    ensures k in m ==> Assign(m, cs)[k] == m[k]
    decreases |cs|
  {
    if cs != [] {
      var p := cs[..|cs| - 1];
      assert KeysOf(p) <= KeysOf(cs);
      AssignElsewhere(m, p, k);
    }
  }

  /** No two conditions write the same key. */
  predicate NoKeyClash(cs: seq<Condition>) {
    forall a, b :: 0 <= a < b < |cs| ==> KeyOf(cs[a]) != KeyOf(cs[b])
  }

  /** When no two conditions share a key, each condition's value is the one that stays. */
  lemma {:induction false} AssignUnique(m: map<string, Json>, cs: seq<Condition>, c: Condition)
    requires NoKeyClash(cs) && c in cs
    ensures KeyOf(c) in Assign(m, cs) && Assign(m, cs)[KeyOf(c)] == c.value
    decreases |cs|
  {
    var n := |cs|;
    var p := cs[..n - 1];
    if c != cs[n - 1] {
      var a :| 0 <= a < |p| && p[a] == c;
      assert cs[a] == c;
      assert KeyOf(c) != KeyOf(cs[n - 1]);
      assert NoKeyClash(p) by {
        forall x, y | 0 <= x < y < |p| ensures KeyOf(p[x]) != KeyOf(p[y]) {
          assert p[x] == cs[x] && p[y] == cs[y];
        }
      }
      AssignUnique(m, p, c);
    }
  }

  // ---------------------------------------------------------------------------
  // The shape of a filter key

  lemma FilterKeyLayout(c: string, o: string)
    ensures var k := FilterKey(c, o);
      && |k| == |FilterPrefix| + |c| + 3 + |o|
      && k[..|FilterPrefix|] == FilterPrefix
      && k[|FilterPrefix|..|FilterPrefix| + |c|] == c
      && k[|FilterPrefix| + |c|] == ']'
      && k[|FilterPrefix| + |c| + 2..|k| - 1] == o
  {
    var k := FilterKey(c, o);
    var n := |FilterPrefix|;
    assert k == FilterPrefix + c + "][" + o + "]";
    assert k[n..n + |c|] == c;
    assert k[n + |c|] == ']';
    assert k[n + |c| + 2..|k| - 1] == o;
  }

  /** Every filter key starts with `filters[`, so it is never `limit`, `sort` or `unlockedOrLockedBy`. */
  lemma FilterKeyNotReserved(c: string, o: string)
    ensures IsFilterKey(FilterKey(c, o))
    ensures FilterKey(c, o) != LimitKey && FilterKey(c, o) != SortKey && FilterKey(c, o) != LockOwnerKey
  {
    FilterKeyLayout(c, o);
    var k := FilterKey(c, o);
    assert k[0] == 'f';
  }

  lemma ReservedKeysAreNotFilterKeys()
    ensures !IsFilterKey(LimitKey) && !IsFilterKey(SortKey) && !IsFilterKey(LockOwnerKey)
  {
    assert LimitKey[0] != 'f' && SortKey[0] != 'f' && LockOwnerKey[0] != 'f';
  }

  /** A column without `]` is recovered from its key: distinct (column, operator) pairs get distinct keys. */
  lemma FilterKeyInjective(c1: string, o1: string, c2: string, o2: string)
    requires ']' !in c1 && ']' !in c2
    requires FilterKey(c1, o1) == FilterKey(c2, o2)
    ensures c1 == c2 && o1 == o2
  {
    FilterKeyLayout(c1, o1);
    FilterKeyLayout(c2, o2);
    var k := FilterKey(c1, o1);
    var n := |FilterPrefix|;
    assert |c1| == |c2|;
  }

  /** Without that restriction two different criteria can share a key. */
  lemma FilterKeysCanClash()
    ensures FilterKey("a][b", "c") == FilterKey("a", "b][c")
  {
  }

  // ---------------------------------------------------------------------------
  // Filters with the properties of a Python mapping

  /** Column names are distinct, and so are the operators of each column, as in a mapping. */
  predicate IsDict(f: Filter) {
    && (forall i, j :: 0 <= i < j < |f| ==> f[i].column != f[j].column)
    && (forall i, a, b :: 0 <= i < |f| && 0 <= a < b < |f[i].criteria| ==>
          f[i].criteria[a].operator != f[i].criteria[b].operator)
  }

  /** No column name contains `]`. */
  predicate BracketFree(f: Filter) {
    forall i :: 0 <= i < |f| ==> ']' !in f[i].column
  }

  /** Every flattened triple comes from one criterion of one column. */
  lemma {:induction false} ConditionSource(f: Filter, c: Condition) returns (i: nat, j: nat)
    requires c in Conditions(f)
    ensures i < |f| && j < |f[i].criteria|
    ensures c == Condition(f[i].column, f[i].criteria[j].operator, f[i].criteria[j].value)
    decreases |f|
  {
    var n := |f|;
    var p := f[..n - 1];
    if c in Conditions(p) {
      i, j := ConditionSource(p, c);
      assert p[i] == f[i];
    } else {
      var cc := ColumnConditions(f[n - 1]);
      assert c in cc;
      var k :| 0 <= k < |cc| && cc[k] == c;
      i, j := n - 1, k;
    }
  }

  /** Every criterion of every column is flattened. */
  lemma {:induction false} CriterionListed(f: Filter, i: nat, j: nat)
    requires i < |f| && j < |f[i].criteria|
    ensures Condition(f[i].column, f[i].criteria[j].operator, f[i].criteria[j].value) in Conditions(f)
    decreases |f|
  {
    var n := |f|;
    var p := f[..n - 1];
    if i < n - 1 {
      assert p[i] == f[i];
      CriterionListed(p, i, j);
    } else {
      assert ColumnConditions(f[i])[j] == Condition(f[i].column, f[i].criteria[j].operator, f[i].criteria[j].value);
    }
  }

  lemma {:induction false} ConditionsNoClash(f: Filter)
    requires IsDict(f) && BracketFree(f)
    ensures NoKeyClash(Conditions(f))
    decreases |f|
  {
    if f != [] {
      var n := |f|;
      var p := f[..n - 1];
      var last := f[n - 1];
      assert forall i :: 0 <= i < |p| ==> p[i] == f[i];
      ConditionsNoClash(p);
      var A := Conditions(p);
      var B := ColumnConditions(last);
      var cs := Conditions(f);
      assert cs == A + B;
      forall a, b | 0 <= a < b < |cs| ensures KeyOf(cs[a]) != KeyOf(cs[b]) {
        if b < |A| {
          assert cs[a] == A[a] && cs[b] == A[b];
        } else if a >= |A| {
          assert cs[a] == B[a - |A|] && cs[b] == B[b - |A|];
          if KeyOf(cs[a]) == KeyOf(cs[b]) {
            FilterKeyInjective(last.column, last.criteria[a - |A|].operator, last.column, last.criteria[b - |A|].operator);
            assert false;
          }
        } else {
          assert cs[a] == A[a] && cs[b] == B[b - |A|];
          assert A[a] in A;
          var i, j := ConditionSource(p, A[a]);
          assert p[i] == f[i];
          if KeyOf(cs[a]) == KeyOf(cs[b]) {
            FilterKeyInjective(f[i].column, cs[a].operator, last.column, cs[b].operator);
            assert false;
          }
        }
      }
    }
  }

  // ---------------------------------------------------------------------------
  // What the options hold

  /** Filter keys never overwrite `limit`, `sort` or `unlockedOrLockedBy`. */
  lemma ReservedNotInFilterKeys(filter: Option<Filter>)
    ensures LimitKey !in FilterKeys(filter) && SortKey !in FilterKeys(filter) && LockOwnerKey !in FilterKeys(filter)
    ensures forall k :: k in FilterKeys(filter) ==> IsFilterKey(k)
  {
    if filter.Some? {
      forall c | c in Conditions(filter.value)
        ensures KeyOf(c) != LimitKey && KeyOf(c) != SortKey && KeyOf(c) != LockOwnerKey && IsFilterKey(KeyOf(c))
      {
        FilterKeyNotReserved(c.column, c.operator);
      }
    }
  }

  /** The non-filter keys: `limit` always, `sort` exactly when a sort is configured,
      `unlockedOrLockedBy` exactly when locked items are excluded, and nothing else
      besides the filter keys, which are all present. */
  lemma QueryOptionsKeys(o: PullingOptions, sailorId: string)
    ensures var r := QueryOptions(o, sailorId);
      && LimitKey in r && r[LimitKey] == JNum(o.pagelimit)
      && (SortKey in r <==> o.sort != JNull)
      && (SortKey in r ==> r[SortKey] == o.sort)
      && (LockOwnerKey in r <==> !o.includeLocked)
      && (LockOwnerKey in r ==> r[LockOwnerKey] == JStr(sailorId))
      && FilterKeys(o.filter) <= r.Keys
      && (forall k :: k in r ==> k == LimitKey || k == SortKey || k == LockOwnerKey || k in FilterKeys(o.filter))
  {
    var base := map[LimitKey := JNum(o.pagelimit)];
    var sorted := if o.sort != JNull then base[SortKey := o.sort] else base;
    ReservedNotInFilterKeys(o.filter);
    assert LimitKey != SortKey && LimitKey != LockOwnerKey && SortKey != LockOwnerKey;
    if o.filter.Some? {
      var cs := Conditions(o.filter.value);
      AssignKeys(sorted, cs);
      AssignElsewhere(sorted, cs, LimitKey);
      AssignElsewhere(sorted, cs, SortKey);
      AssignElsewhere(sorted, cs, LockOwnerKey);
    }
  }

  /** Without a filter no `filters[...]` key is sent. */
  lemma QueryOptionsWithoutFilter(o: PullingOptions, sailorId: string)
    requires o.filter.None?
    ensures forall k :: k in QueryOptions(o, sailorId) ==> !IsFilterKey(k)
  {
    QueryOptionsKeys(o, sailorId);
    ReservedKeysAreNotFilterKeys();
  }

  /** For every column and operator of a mapping filter whose column names hold no `]`,
      `filters[column][operator]` carries that criterion's value. */
  lemma QueryOptionsFilterEntry(o: PullingOptions, sailorId: string, i: nat, j: nat)
    requires o.filter.Some? && IsDict(o.filter.value) && BracketFree(o.filter.value)
    requires i < |o.filter.value| && j < |o.filter.value[i].criteria|
    ensures var f := o.filter.value;
      var k := FilterKey(f[i].column, f[i].criteria[j].operator);
      k in QueryOptions(o, sailorId) && QueryOptions(o, sailorId)[k] == f[i].criteria[j].value
  {
    var f := o.filter.value;
    var base := map[LimitKey := JNum(o.pagelimit)];
    var sorted := if o.sort != JNull then base[SortKey := o.sort] else base;
    var c := Condition(f[i].column, f[i].criteria[j].operator, f[i].criteria[j].value);
    CriterionListed(f, i, j);
    ConditionsNoClash(f);
    AssignUnique(sorted, Conditions(f), c);
    FilterKeyNotReserved(c.column, c.operator);
  }

  /** With a column named `a][b`, its criterion `c` is overwritten by the later criterion
      `b][c` of column `a`: both are sent as `filters[a][b][c]`. */
  lemma ClashingCriterionIsOverwritten(o: PullingOptions, sailorId: string)
    requires o.filter == Some([
      ColumnFilter("a][b", [Criterion("c", JNum(1))]),
      ColumnFilter("a", [Criterion("b][c", JNum(2))])])
    ensures var k := FilterKey("a][b", "c");
      k in QueryOptions(o, sailorId) && QueryOptions(o, sailorId)[k] == JNum(2)
  {
    var f := o.filter.value;
    var base := map[LimitKey := JNum(o.pagelimit)];
    var sorted := if o.sort != JNull then base[SortKey := o.sort] else base;
    var cs := Conditions(f);
    assert f[..1][..0] == [];
    assert Conditions(f[..1]) == [Condition("a][b", "c", JNum(1))];
    assert f[..2] == f;
    assert cs == [Condition("a][b", "c", JNum(1)), Condition("a", "b][c", JNum(2))];
    assert cs[..1] == [Condition("a][b", "c", JNum(1))];
    FilterKeysCanClash();
    FilterKeyNotReserved("a", "b][c");
  }
}
