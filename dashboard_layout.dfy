/** The filter pipeline of the dashboard (frontend/DashboardLayout.jsx,
    `handleFilterChange`): a search over five text fields, status and
    channel lists, an amount range and a KYC selection, each narrowing the
    list of the stage before. A stage that throws (a non-string field under
    `toLowerCase`, a property read on a null or undefined item) makes the
    whole pipeline `None`. */
module DashboardLayout {
  import opened Wrappers
  import opened Text
  import opened Js
  import opened Collections

  /** The filters the search bar reports. Absent lists are empty; the amount
      bounds are the raw input values. */
  datatype Filters = Filters(
    searchTerm: string,
    status: seq<string>,
    channels: seq<string>,
    amountMin: JsValue,
    amountMax: JsValue,
    kycStatus: seq<string>)

  /** `list.includes(v)` for a list of strings. */
  predicate Listed(list: seq<string>, v: JsValue)
  {
    v.Str? && v.s in list
  }

  // ---------------------------------------------------------------------
  // Search
  // ---------------------------------------------------------------------

  const SearchFields: seq<string> := ["id", "customerId", "customer_id", "channel", "status"]

  /** `a?.toLowerCase().includes(term) || b?.… || …` over `fields`, left
      to right: the first match answers true, the first throw answers
      `None`. */
  function SearchFrom(t: JsValue, fields: seq<string>, term: string): Option<bool>
  {
    if fields == [] then Some(false)
    else
      var here := OptionalLowerIncludes(Get(t, fields[0]), term);
      if here.None? then None
      else if here.value then Some(true)
      else SearchFrom(t, fields[1..], term)
  }

  /** `v?.toLowerCase()` does not throw: `v` is a string, null or
      undefined. */
  predicate ReadsSafely(v: JsValue)
  {
    IsNullish(v) || v.Str?
  }

  /** Field `i` holds a string containing the term, case aside, and no
      field before it throws. */
  predicate MatchesAt(t: JsValue, fields: seq<string>, term: string, i: int)
  {
    0 <= i < |fields| && Get(t, fields[i]).Str? && Contains(Lower(Get(t, fields[i]).s), term)
    && forall j :: 0 <= j < i ==> ReadsSafely(Get(t, fields[j]))
  }

  /** A search match is exactly a field that matches with no throwing field
      before it, and fields that are all strings or empty never throw. */
  lemma {:induction false} SearchFromMeaning(t: JsValue, fields: seq<string>, term: string)
    ensures SearchFrom(t, fields, term) == Some(true) <==> exists i :: MatchesAt(t, fields, term, i)
    ensures (forall i :: 0 <= i < |fields| ==> ReadsSafely(Get(t, fields[i]))) ==>
      SearchFrom(t, fields, term).Some?
  {
    if fields != [] {
      var rest := fields[1..];
      SearchFromMeaning(t, rest, term);
      assert forall i :: 0 <= i < |rest| ==> rest[i] == fields[i + 1];
      var head := Get(t, fields[0]);
      if ReadsSafely(head) && !(head.Str? && Contains(Lower(head.s), term)) {
        // the head neither throws nor matches: the answer is the rest's
        forall i | 1 <= i <= |rest| ensures MatchesAt(t, fields, term, i) <==> MatchesAt(t, rest, term, i - 1) {
        }
        if exists i :: MatchesAt(t, fields, term, i) {
          var i :| MatchesAt(t, fields, term, i);
          assert MatchesAt(t, rest, term, i - 1);
        }
        if exists i :: MatchesAt(t, rest, term, i) {
          var i :| MatchesAt(t, rest, term, i);
          assert MatchesAt(t, fields, term, i + 1);
        }
      } else if head.Str? {
        assert MatchesAt(t, fields, term, 0);
      } else {
        assert forall i :: !MatchesAt(t, fields, term, i);
      }
    }
  }

  /** The search test on one item: reading a field of a null or undefined
      item throws before any optional chaining. */
  function SearchTest(t: JsValue, term: string): Option<bool>
  {
    if IsNullish(t) then None else SearchFrom(t, SearchFields, term)
  }

  predicate SearchKeeps(term: string, t: JsValue)
  {
    SearchTest(t, term) == Some(true)
  }

  /** `filtered.filter(search)`: `None` when the test throws on some item. */
  function SearchStage(data: seq<JsValue>, term: string): (r: Option<seq<JsValue>>)
    ensures r.Some? <==> forall i :: 0 <= i < |data| ==> SearchTest(data[i], term).Some?
    ensures r.Some? ==> r.value == Filter(t => SearchKeeps(term, t), data)
  {
    if data == [] then Some([])
    else
      var head := SearchTest(data[0], term);
      var tail := SearchStage(data[1..], term);
      if head.None? then None
      else if tail.None? then
        assert exists i :: 1 <= i < |data| && SearchTest(data[i], term).None? by {
          var j :| 0 <= j < |data[1..]| && SearchTest(data[1..][j], term).None?;
          assert data[j + 1] == data[1..][j];
        }
        None
      else Some((if head.value then [data[0]] else []) + tail.value)
  }

  // ---------------------------------------------------------------------
  // Amount and KYC
  // ---------------------------------------------------------------------

  /** `Number(t.amount) || 0` */
  function AmountOf(t: JsValue): real
  {
    var n := ToNumber(Get(t, "amount"));
    if n.Num? then n.n else 0.0
  }

  /** `amount >= min`, with `min` `Number(bound)` or 0 for an empty bound;
      NaN compares false. */
  predicate AboveMin(amount: real, bound: JsValue)
  {
    var min := if Truthy(bound) then ToNumber(bound) else Num(0.0);
    min.Num? && amount >= min.n
  }

  /** `amount <= max`, with `max` `Number(bound)` or Infinity for an empty
      bound. */
  predicate BelowMax(amount: real, bound: JsValue)
  {
    !Truthy(bound) || (ToNumber(bound).Num? && amount <= ToNumber(bound).n)
  }

  predicate AmountKeeps(min: JsValue, max: JsValue, t: JsValue)
  {
    AboveMin(AmountOf(t), min) && BelowMax(AmountOf(t), max)
  }

  /** `t.kycStatus || t.kyc` as a truth value. */
  predicate KycVerified(t: JsValue)
  {
    Truthy(Or(Get(t, "kycStatus"), Get(t, "kyc")))
  }

  predicate KycKeeps(selection: seq<string>, t: JsValue)
  {
    ("Verified" in selection && KycVerified(t)) || ("Pending" in selection && !KycVerified(t))
  }

  // ---------------------------------------------------------------------
  // The pipeline
  // ---------------------------------------------------------------------

  predicate SearchActive(f: Filters) { f.searchTerm != "" }
  predicate AmountActive(f: Filters) { Truthy(f.amountMin) || Truthy(f.amountMax) }

  /** One `filter` stage guarded by its `if`: the list is narrowed by `p`
      when the stage is active and passes through otherwise. */
  function Narrowed(active: bool, p: JsValue -> bool, data: seq<JsValue>): (r: seq<JsValue>)
    ensures IsSubsequence(r, data)
    ensures forall t :: t in r <==> t in data && (active ==> p(t))
    ensures !active ==> r == data
    ensures active ==> r == Filter(p, data)
  {
    if active then
      assert IsSubsequence(Filter(p, data), data) by { FilterIsSubsequence(p, data); }
      assert forall t :: t in Filter(p, data) <==> t in data && p(t) by {
        forall t ensures t in Filter(p, data) <==> t in data && p(t) {
          FilterMembership(p, data, t);
        }
      }
      Filter(p, data)
    else
      assert IsSubsequence(data, data) by { SubsequenceRefl(data); }
      data
  }

  predicate StatusKeeps(selection: seq<string>, t: JsValue) { Listed(selection, Get(t, "status")) }
  predicate ChannelKeeps(selection: seq<string>, t: JsValue) { Listed(selection, Get(t, "channel")) }

  /** Some item is null or undefined: reading any property of it throws. */
  predicate HasNullish(data: seq<JsValue>)
  {
    exists i :: 0 <= i < |data| && IsNullish(data[i])
  }

  /** One guarded stage after the search, applied to the outcome of the
      stage before: when active, its test reads a property of every item
      and so throws on a null or undefined one. */
  function Staged(prev: Option<seq<JsValue>>, active: bool, p: JsValue -> bool): Option<seq<JsValue>>
  {
    match prev
    case None => None
    case Some(data) => if active && HasNullish(data) then None else Some(Narrowed(active, p, data))
  }

  /** The stages after the search, in their order. */
  function AfterSearch(searched: Option<seq<JsValue>>, f: Filters): Option<seq<JsValue>>
  {
    var byStatus := Staged(searched, f.status != [], t => StatusKeeps(f.status, t));
    var byChannel := Staged(byStatus, f.channels != [], t => ChannelKeeps(f.channels, t));
    var byAmount := Staged(byChannel, AmountActive(f), t => AmountKeeps(f.amountMin, f.amountMax, t));
    Staged(byAmount, f.kycStatus != [], t => KycKeeps(f.kycStatus, t))
  }

  /** The whole pipeline: `None` when a stage throws. */
  function Pipeline(transactions: seq<JsValue>, f: Filters): (r: Option<seq<JsValue>>)
    ensures !SearchActive(f) && !ListsActive(f) ==> r == Some(transactions)
    ensures (SearchActive(f) || ListsActive(f)) && HasNullish(transactions) ==> r.None?
  {
    var searched := if SearchActive(f) then SearchStage(transactions, Lower(f.searchTerm)) else Some(transactions);
    AfterSearch(searched, f)
  }

  /** Some stage after the search is active. */
  predicate ListsActive(f: Filters)
  {
    f.status != [] || f.channels != [] || AmountActive(f) || f.kycStatus != []
  }

  /** What an item must satisfy to survive every active stage after the
      search. */
  predicate PassesLists(f: Filters, t: JsValue)
  {
    (f.status != [] ==> StatusKeeps(f.status, t))
    && (f.channels != [] ==> ChannelKeeps(f.channels, t))
    && (AmountActive(f) ==> AmountKeeps(f.amountMin, f.amountMax, t))
    && (f.kycStatus != [] ==> KycKeeps(f.kycStatus, t))
  }

  /** A guarded stage is one filter by "inactive, or passes". */
  lemma NarrowedIsFilter(active: bool, p: JsValue -> bool, keep: JsValue -> bool, data: seq<JsValue>)
    requires forall t :: keep(t) == (active ==> p(t))
    ensures Narrowed(active, p, data) == Filter(keep, data)
  {
    if active {
      FilterExt(p, keep, data);
    } else {
      FilterAll(keep, data);
    }
  }

  /** A stage keeps a list free of null and undefined items free of them. */
  lemma StagedKeepsDefined(data: seq<JsValue>, active: bool, p: JsValue -> bool)
    requires !HasNullish(data)
    ensures Staged(Some(data), active, p) == Some(Narrowed(active, p, data))
    ensures !HasNullish(Narrowed(active, p, data))
  {
    var r := Narrowed(active, p, data);
    forall i | 0 <= i < |r| ensures !IsNullish(r[i]) {
      assert r[i] in data;
    }
  }

  /** On a list with no null or undefined item, the stages after the search
      never throw and are one filter by every active stage's test. */
  lemma AfterSearchIsFilter(data: seq<JsValue>, f: Filters)
    requires !HasNullish(data)
    ensures AfterSearch(Some(data), f) == Some(Filter(t => PassesLists(f, t), data))
  {
    var byStatus := Narrowed(f.status != [], t => StatusKeeps(f.status, t), data);
    StagedKeepsDefined(data, f.status != [], t => StatusKeeps(f.status, t));
    var byChannel := Narrowed(f.channels != [], t => ChannelKeeps(f.channels, t), byStatus);
    StagedKeepsDefined(byStatus, f.channels != [], t => ChannelKeeps(f.channels, t));
    var byAmount := Narrowed(AmountActive(f), t => AmountKeeps(f.amountMin, f.amountMax, t), byChannel);
    StagedKeepsDefined(byChannel, AmountActive(f), t => AmountKeeps(f.amountMin, f.amountMax, t));
    StagedKeepsDefined(byAmount, f.kycStatus != [], t => KycKeeps(f.kycStatus, t));
    // the four stages as one filter, composed a stage at a time
    var k1 := t => f.status != [] ==> StatusKeeps(f.status, t);
    var k2 := t => f.channels != [] ==> ChannelKeeps(f.channels, t);
    var k3 := t => AmountActive(f) ==> AmountKeeps(f.amountMin, f.amountMax, t);
    var k4 := t => f.kycStatus != [] ==> KycKeeps(f.kycStatus, t);
    var k12 := t => k1(t) && k2(t);
    var k123 := t => k12(t) && k3(t);
    NarrowedIsFilter(f.status != [], t => StatusKeeps(f.status, t), k1, data);
    NarrowedIsFilter(f.channels != [], t => ChannelKeeps(f.channels, t), k2, byStatus);
    FilterCompose(k1, k2, k12, data);
    NarrowedIsFilter(AmountActive(f), t => AmountKeeps(f.amountMin, f.amountMax, t), k3, byChannel);
    FilterCompose(k12, k3, k123, data);
    NarrowedIsFilter(f.kycStatus != [], t => KycKeeps(f.kycStatus, t), k4, byAmount);
    FilterCompose(k123, k4, t => PassesLists(f, t), data);
  }

  /** On a list with no null or undefined item, the stages after the search
      keep, in their order and with their repetitions, exactly the items
      that pass every active stage. */
  lemma AfterSearchDefined(data: seq<JsValue>, f: Filters)
    requires !HasNullish(data)
    ensures AfterSearch(Some(data), f).Some?
    ensures IsSubsequence(AfterSearch(Some(data), f).value, data)
    ensures forall t :: t in AfterSearch(Some(data), f).value <==> t in data && PassesLists(f, t)
    ensures AfterSearch(Some(data), f).value == Filter(t => PassesLists(f, t), data)
  {
    AfterSearchIsFilter(data, f);
    FilterIsSubsequence(t => PassesLists(f, t), data);
    forall t ensures t in Filter(t => PassesLists(f, t), data) <==> t in data && PassesLists(f, t) {
      FilterMembership(t => PassesLists(f, t), data, t);
    }
  }

  /** With a null or undefined item in the list, the first active stage
      throws; with no stage active the list passes through. */
  lemma AfterSearchNullish(data: seq<JsValue>, f: Filters)
    requires HasNullish(data)
    ensures AfterSearch(Some(data), f) == if ListsActive(f) then None else Some(data)
  {
  }

  /** A successful search leaves no null or undefined item. */
  lemma SearchedDefined(transactions: seq<JsValue>, term: string)
    requires SearchStage(transactions, term).Some?
    ensures !HasNullish(transactions)
  {
    forall i | 0 <= i < |transactions| ensures !IsNullish(transactions[i]) {
      assert SearchTest(transactions[i], term).Some?;
    }
  }

  /** What a transaction must satisfy to survive the whole pipeline. */
  predicate Kept(f: Filters, t: JsValue)
  {
    (SearchActive(f) ==> SearchKeeps(Lower(f.searchTerm), t)) && PassesLists(f, t)
  }

  /** The pipeline fails exactly when an active search throws on some item
      or some later stage is active while an item is null or undefined;
      otherwise it keeps, in their order, exactly the transactions that
      pass every active filter. */
  lemma PipelineMeaning(transactions: seq<JsValue>, f: Filters)
    ensures Pipeline(transactions, f).None? <==>
      (SearchActive(f) && exists i :: 0 <= i < |transactions| && SearchTest(transactions[i], Lower(f.searchTerm)).None?)
      || (ListsActive(f) && HasNullish(transactions))
    ensures Pipeline(transactions, f).Some? ==> IsSubsequence(Pipeline(transactions, f).value, transactions)
    ensures Pipeline(transactions, f).Some? ==> forall t :: t in Pipeline(transactions, f).value <==>
      t in transactions && (SearchActive(f) ==> SearchKeeps(Lower(f.searchTerm), t)) && PassesLists(f, t)
    ensures Pipeline(transactions, f).Some? ==>
      Pipeline(transactions, f).value == Filter(t => Kept(f, t), transactions)
  {
    var term := Lower(f.searchTerm);
    if !SearchActive(f) {
      if HasNullish(transactions) {
        AfterSearchNullish(transactions, f);
        if !ListsActive(f) {
          SubsequenceRefl(transactions);
          FilterAll(t => Kept(f, t), transactions);
        }
      } else {
        AfterSearchDefined(transactions, f);
        FilterExt(t => PassesLists(f, t), t => Kept(f, t), transactions);
      }
    } else if SearchStage(transactions, term).Some? {
      SearchedDefined(transactions, term);
      var searched := Filter(t => SearchKeeps(term, t), transactions);
      assert !HasNullish(searched) by {
        if HasNullish(searched) {
          var i :| 0 <= i < |searched| && IsNullish(searched[i]);
          FilterMembership(t => SearchKeeps(term, t), transactions, searched[i]);
        }
      }
      AfterSearchDefined(searched, f);
      FilterIsSubsequence(t => SearchKeeps(term, t), transactions);
      SubsequenceTrans(AfterSearch(Some(searched), f).value, searched, transactions);
      forall t ensures t in searched <==> t in transactions && SearchKeeps(term, t) {
        FilterMembership(t => SearchKeeps(term, t), transactions, t);
      }
      FilterCompose(t => SearchKeeps(term, t), t => PassesLists(f, t), t => Kept(f, t), transactions);
    }
  }

  /** `handleFilterChange(filters)`: `filtered` starts as every transaction
      and each active stage replaces it by the part that passes, or throws
      on a null or undefined item. */
  method HandleFilterChange(transactions: seq<JsValue>, f: Filters) returns (r: Option<seq<JsValue>>)
    ensures r == Pipeline(transactions, f)
  {
    var filtered := transactions;
    if f.searchTerm != "" {
      var searchLower := Lower(f.searchTerm);
      var searched := SearchStage(filtered, searchLower);
      if searched.None? {
        return None;
      }
      filtered := searched.value;
    }
    if f.status != [] {
      if HasNullish(filtered) {
        return None;
      }
      filtered := Filter(t => StatusKeeps(f.status, t), filtered);
    }
    if f.channels != [] {
      if HasNullish(filtered) {
        return None;
      }
      filtered := Filter(t => ChannelKeeps(f.channels, t), filtered);
    }
    if AmountActive(f) {
      if HasNullish(filtered) {
        return None;
      }
      filtered := Filter(t => AmountKeeps(f.amountMin, f.amountMax, t), filtered);
    }
    if f.kycStatus != [] {
      if HasNullish(filtered) {
        return None;
      }
      filtered := Filter(t => KycKeeps(f.kycStatus, t), filtered);
    }
    r := Some(filtered);
  }

  /** The search ignores the case of the term: a term and its lower-case
      form select the same transactions. */
  lemma SearchIgnoresCase(transactions: seq<JsValue>, f: Filters)
    ensures Pipeline(transactions, f) == Pipeline(transactions, f.(searchTerm := Lower(f.searchTerm)))
  {
    LowerIdempotent(f.searchTerm);
  }

  /** A transaction passes the search exactly when it is an item whose id,
      customerId, customer_id, channel or status holds a string containing
      the term once both are lower-cased, with no field before it that is
      neither a string nor empty; an item whose search fields are all
      strings or empty never makes the search throw, and a null or
      undefined one always does. */
  lemma SearchMatchMeaning(t: JsValue, term: string)
    ensures SearchKeeps(Lower(term), t) <==>
      !IsNullish(t) && exists i :: MatchesAt(t, SearchFields, Lower(term), i)
    ensures !IsNullish(t) && (forall i :: 0 <= i < |SearchFields| ==> ReadsSafely(Get(t, SearchFields[i]))) ==>
      SearchTest(t, Lower(term)).Some?
    ensures IsNullish(t) ==> SearchTest(t, Lower(term)).None?
  {
    SearchFromMeaning(t, SearchFields, Lower(term));
  }

  /** The amount stage keeps exactly the items whose amount (0 when it is
      not a number) lies in [min, max]; an empty bound means 0 or
      Infinity. */
  lemma AmountStageBounds(f: Filters, t: JsValue)
    requires Truthy(f.amountMin) ==> ToNumber(f.amountMin).Num?
    requires Truthy(f.amountMax) ==> ToNumber(f.amountMax).Num?
    ensures AmountKeeps(f.amountMin, f.amountMax, t) <==>
      (if Truthy(f.amountMin) then ToNumber(f.amountMin).n else 0.0) <= AmountOf(t)
      && (Truthy(f.amountMax) ==> AmountOf(t) <= ToNumber(f.amountMax).n)
  {
  }

  /** A bound that is set but not a number (NaN) fails every comparison,
      so the amount stage then keeps nothing. */
  lemma NonNumericBoundKeepsNothing(f: Filters, t: JsValue)
    requires (Truthy(f.amountMin) && !ToNumber(f.amountMin).Num?)
          || (Truthy(f.amountMax) && !ToNumber(f.amountMax).Num?)
    ensures !AmountKeeps(f.amountMin, f.amountMax, t)
  {
  }

  /** Selecting both KYC states keeps every item. */
  lemma BothKycStatesKeepAll(selection: seq<string>, t: JsValue)
    requires "Verified" in selection && "Pending" in selection
    ensures KycKeeps(selection, t)
  {
  }
}
