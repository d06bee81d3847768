/** The transaction management page (frontend/TransactionManagement.jsx):
    normalisation of history records into the table's shape, the merge of
    fetched pages under a 200-item cap, the search and status filters and
    the client-side paging of the filtered list. A JavaScript exception
    (calling `toLowerCase` on something that is not a string, reading a
    property of null) is `None`. */
module TransactionManagement {
  import opened Wrappers
  import opened Text
  import opened Js
  import opened Collections

  const PageSize: int := 15
  const MaxResults: int := 200

  /** The UI shape of a transaction. */
  datatype Txn = Txn(
    id: JsValue,
    customerId: JsValue,
    amount: JsValue,
    status: JsValue,
    txnType: JsValue,
    timestamp: JsValue,
    channel: string,
    riskScore: JsValue,
    isFraud: bool,
    mlReason: JsValue,
    ruleReasons: seq<JsValue>,
    explanation: JsValue)

  // ---------------------------------------------------------------------
  // normalizeTransaction
  // ---------------------------------------------------------------------

  /** The fraud flag: a boolean `is_fraud`, else a boolean `isFraud`, else
      whether the status is 'flagged' or 'fraud'. */
  function FraudFlag(t: JsValue): bool
  {
    if Get(t, "is_fraud").Bool? then Get(t, "is_fraud").b
    else if Get(t, "isFraud").Bool? then Get(t, "isFraud").b
    else Get(t, "status") == Str("flagged") || Get(t, "status") == Str("fraud")
  }

  /** `typeof v === 'number'` */
  predicate IsNumber(v: JsValue)
  {
    v.Num? || v.NaN?
  }

  /** The channel before lower-casing: `t.channel || t.txn_channel || 'unknown'`. */
  function RawChannel(t: JsValue): JsValue
  {
    Or(Or(Get(t, "channel"), Get(t, "txn_channel")), Str("unknown"))
  }

  /** `normalizeTransaction(t)`; `None` when it throws, that is when `t` is
      null or undefined or its channel is not a string. */
  function NormalizeTransaction(t: JsValue): (r: Option<Txn>)
    ensures r.Some? <==> !IsNullish(t) && RawChannel(t).Str?
    ensures r.Some? ==> Truthy(r.value.id) && Truthy(r.value.customerId) && Truthy(r.value.status)
    ensures r.Some? ==> !IsNullish(r.value.amount) && IsNumber(r.value.riskScore)
    ensures r.Some? ==> r.value.isFraud == FraudFlag(t)
    ensures r.Some? ==> r.value.channel == Lower(RawChannel(t).s)
    ensures r.Some? && Truthy(Get(t, "id")) ==> r.value.id == Get(t, "id")
    ensures r.Some? && !Truthy(Get(t, "status")) ==> (r.value.status == Str("fraud") <==> r.value.isFraud)
    ensures r.Some? ==>
      r.value.ruleReasons == (if Get(t, "rule_reasons").Arr? then Get(t, "rule_reasons").items else [])
    ensures r.Some? ==> r.value.id == FirstTruthy(t, ["id", "transaction_id", "_id"], Str("UNKNOWN"))
    ensures r.Some? ==> r.value.customerId == FirstTruthy(t, ["customer_id", "customerId"], Str("N/A"))
    ensures r.Some? ==>
      r.value.amount == FirstDefined(t, ["amount", "transaction_amount", "txn_amount"], Num(0.0))
    ensures r.Some? ==>
      r.value.timestamp == FirstTruthy(t, ["timestamp", "created_at", "processed_at"], Str("N/A"))
    ensures r.Some? ==> r.value.txnType == FirstTruthy(t, ["type", "txn_type"], Str("transaction"))
    ensures r.Some? ==>
      r.value.status == FirstTruthy(t, ["status"], Str(if r.value.isFraud then "fraud" else "completed"))
    ensures r.Some? && IsNumber(Get(t, "risk_score")) ==> r.value.riskScore == Get(t, "risk_score")
    ensures r.Some? && !IsNumber(Get(t, "risk_score")) && IsNumber(Get(t, "riskScore")) ==>
      r.value.riskScore == Get(t, "riskScore")
    ensures r.Some? && !IsNumber(Get(t, "risk_score")) && !IsNumber(Get(t, "riskScore")) ==>
      r.value.riskScore == Num(0.0)
  {
    if IsNullish(t) || !RawChannel(t).Str? then None
    else
      var isFraud := FraudFlag(t);
      var id := Or(Or(Or(Get(t, "id"), Get(t, "transaction_id")), Get(t, "_id")), Str("UNKNOWN"));
      var customerId := Or(Or(Get(t, "customer_id"), Get(t, "customerId")), Str("N/A"));
      var status := Or(Get(t, "status"), Str(if isFraud then "fraud" else "completed"));
      OrTruthy(Or(Or(Get(t, "id"), Get(t, "transaction_id")), Get(t, "_id")), Str("UNKNOWN"));
      OrTruthy(Or(Get(t, "customer_id"), Get(t, "customerId")), Str("N/A"));
      OrTruthy(Get(t, "status"), Str(if isFraud then "fraud" else "completed"));
      var amount := Coalesce(Coalesce(Coalesce(Get(t, "amount"), Get(t, "transaction_amount")), Get(t, "txn_amount")), Num(0.0));
      CoalesceDefined(Coalesce(Coalesce(Get(t, "amount"), Get(t, "transaction_amount")), Get(t, "txn_amount")), Num(0.0));
      FirstTruthyOfThree(t, "id", "transaction_id", "_id", Str("UNKNOWN"));
      FirstTruthyOfThree(t, "timestamp", "created_at", "processed_at", Str("N/A"));
      FirstTruthyOfTwo(t, "customer_id", "customerId", Str("N/A"));
      FirstTruthyOfTwo(t, "type", "txn_type", Str("transaction"));
      FirstDefinedOfThree(t, "amount", "transaction_amount", "txn_amount", Num(0.0));
      Some(Txn(
        id,
        customerId,
        amount,
        status,
        Or(Or(Get(t, "type"), Get(t, "txn_type")), Str("transaction")),
        Or(Or(Or(Get(t, "timestamp"), Get(t, "created_at")), Get(t, "processed_at")), Str("N/A")),
        Lower(RawChannel(t).s),
        if IsNumber(Get(t, "risk_score")) then Get(t, "risk_score")
        else if IsNumber(Get(t, "riskScore")) then Get(t, "riskScore")
        else Num(0.0),
        isFraud,
        Or(Get(t, "ml_reason"), Null),
        if Get(t, "rule_reasons").Arr? then Get(t, "rule_reasons").items else [],
        Or(Get(t, "explanation"), Null)))
  }

  /** The normalised channel has no upper-case letter. */
  lemma NormalizedChannelIsLowerCase(t: JsValue, i: int)
    requires NormalizeTransaction(t).Some?
    requires 0 <= i < |NormalizeTransaction(t).value.channel|
    ensures !('A' <= NormalizeTransaction(t).value.channel[i] <= 'Z')
  {
    LowerPointwise(RawChannel(t).s, i);
  }

  /** `raw.map(normalizeTransaction)`: `None` as soon as one record throws. */
  function NormalizeAll(raw: seq<JsValue>): (r: Option<seq<Txn>>)
    ensures r.Some? <==> forall i :: 0 <= i < |raw| ==> NormalizeTransaction(raw[i]).Some?
    ensures r.Some? ==> |r.value| == |raw|
    ensures r.Some? ==> forall i :: 0 <= i < |raw| ==> r.value[i] == NormalizeTransaction(raw[i]).value
  {
    MapAll(NormalizeTransaction, raw)
  }

  /** The records of an answer:
      `res?.items || res?.transactions || res?.data || res || []`, kept only
      when that is an array. */
  function BatchRecords(res: JsValue): (r: seq<JsValue>)
    ensures var raw := FirstTruthy(res, ["items", "transactions", "data"], Or(res, Arr([])));
      r == if raw.Arr? then raw.items else []
    ensures Get(res, "items").Arr? ==> r == Get(res, "items").items
    ensures res.Arr? ==> r == res.items
    ensures IsNullish(res) ==> r == []
  {
    var field := (k: string) => if IsNullish(res) then Undefined else Get(res, k);
    var raw := Or(Or(Or(Or(field("items"), field("transactions")), field("data")), res), Arr([]));
    FirstTruthyOfThree(res, "items", "transactions", "data", Or(res, Arr([])));
    if raw.Arr? then raw.items else []
  }

  // ---------------------------------------------------------------------
  // Merging fetched pages
  // ---------------------------------------------------------------------

  function Ids(s: seq<Txn>): (r: set<JsValue>)
    ensures forall i :: 0 <= i < |s| ==> s[i].id in r
  {
    if s == [] then {} else Ids(s[..|s| - 1]) + {s[|s| - 1].id}
  }

  lemma {:induction false} IdsMembership(s: seq<Txn>, id: JsValue)
    ensures id in Ids(s) <==> exists i :: 0 <= i < |s| && s[i].id == id
  {
    if s != [] {
      IdsMembership(s[..|s| - 1], id);
      if id in Ids(s[..|s| - 1]) {
        var i :| 0 <= i < |s| - 1 && s[..|s| - 1][i].id == id;
        assert s[i].id == id;
      }
    }
  }

  lemma IdsAppend(s: seq<Txn>, x: Txn)
    ensures Ids(s + [x]) == Ids(s) + {x.id}
  {
    assert (s + [x])[..|s + [x]| - 1] == s;
  }

  /** The items of `batch` whose id is neither in `seen` nor earlier in the
      batch, in batch order. */
  function NewItems(seen: set<JsValue>, batch: seq<Txn>): (r: seq<Txn>)
    decreases |batch|
    ensures |r| <= |batch|
    ensures forall i :: 0 <= i < |r| ==> r[i] in batch && r[i].id !in seen
  {
    if batch == [] then []
    else if batch[0].id in seen then NewItems(seen, batch[1..])
    else [batch[0]] + NewItems(seen + {batch[0].id}, batch[1..])
  }

  /** `s[..min(|s|, 200)]` (`slice(0, MAX_RESULTS)`). */
  function Cap(s: seq<Txn>): (r: seq<Txn>)
    ensures |r| <= MaxResults && |r| <= |s| && r == s[..|r|]
    ensures |s| <= MaxResults ==> r == s
    ensures |s| > MaxResults ==> |r| == MaxResults
  {
    if |s| <= MaxResults then s else s[..MaxResults]
  }

  /** The new list after a page of results. */
  function Merged(prev: seq<Txn>, batch: seq<Txn>, page: int): (r: seq<Txn>)
    ensures |r| <= MaxResults
    ensures page == 1 ==> r <= batch
    ensures page != 1 && |prev| <= MaxResults ==> prev <= r
  {
    if page == 1 then Cap(batch) else Cap(prev + NewItems(Ids(prev), batch))
  }

  /** The `setTransactions` updater: page 1 replaces the list; a later page
      appends the unseen items with a `Set` of ids. */
  method MergePage(prev: seq<Txn>, normalized: seq<Txn>, page: int) returns (r: seq<Txn>)
    ensures r == Merged(prev, normalized, page)
  {
    if page == 1 {
      return Cap(normalized);
    }
    var existingIds := Ids(prev);
    var merged := prev;
    var i := 0;
    while i < |normalized|
      invariant 0 <= i <= |normalized|
      invariant existingIds == Ids(merged)
      invariant merged + NewItems(existingIds, normalized[i..]) == prev + NewItems(Ids(prev), normalized)
    {
      var txn := normalized[i];
      assert normalized[i..][1..] == normalized[i + 1..];
      if txn.id !in existingIds {
        assert (merged + [txn]) + NewItems(existingIds + {txn.id}, normalized[i + 1..])
            == merged + ([txn] + NewItems(existingIds + {txn.id}, normalized[i + 1..]));
        IdsAppend(merged, txn);
        merged := merged + [txn];
        existingIds := existingIds + {txn.id};
      }
      i := i + 1;
    }
    assert normalized[i..] == [];
    r := Cap(merged);
  }

  /** The appended items are new: their ids are pairwise distinct and none
      was seen before. */
  lemma {:induction false} NewItemsAreNew(seen: set<JsValue>, batch: seq<Txn>)
    decreases |batch|
    ensures forall i :: 0 <= i < |NewItems(seen, batch)| ==> NewItems(seen, batch)[i].id !in seen
    ensures forall i, j :: 0 <= i < j < |NewItems(seen, batch)| ==>
      NewItems(seen, batch)[i].id != NewItems(seen, batch)[j].id
    ensures forall x :: x in NewItems(seen, batch) ==> x in batch
  {
    if batch != [] {
      if batch[0].id in seen {
        NewItemsAreNew(seen, batch[1..]);
      } else {
        NewItemsAreNew(seen + {batch[0].id}, batch[1..]);
      }
    }
  }

  /** Every id of the batch is present after the merge, before the cap. */
  lemma {:induction false} NewItemsCoverBatch(seen: set<JsValue>, batch: seq<Txn>)
    ensures seen + Ids(NewItems(seen, batch)) == seen + Ids(batch)
    decreases |batch|
  {
    if batch != [] {
      var x := batch[0];
      assert batch == [x] + batch[1..];
      IdsOfCons(x, batch[1..]);
      if x.id in seen {
        NewItemsCoverBatch(seen, batch[1..]);
      } else {
        NewItemsCoverBatch(seen + {x.id}, batch[1..]);
        IdsOfCons(x, NewItems(seen + {x.id}, batch[1..]));
      }
    }
  }

  lemma {:induction false} IdsOfCons(x: Txn, s: seq<Txn>)
    ensures Ids([x] + s) == {x.id} + Ids(s)
  {
    forall id ensures id in Ids([x] + s) <==> id in {x.id} + Ids(s) {
      assert ([x] + s)[0] == x;
      IdsMembership([x] + s, id);
      IdsMembership(s, id);
      if id in Ids(s) {
        var i :| 0 <= i < |s| && s[i].id == id;
        assert ([x] + s)[i + 1].id == id;
      }
      if id in Ids([x] + s) && id != x.id {
        var i :| 0 <= i < |[x] + s| && ([x] + s)[i].id == id;
        assert s[i - 1].id == id;
      }
    }
  }

  /** A later page keeps the previous list (at most 200 items) as a prefix,
      never holds more than 200 items, and never repeats an id when the
      previous list did not. */
  lemma LaterPageKeepsPrefix(prev: seq<Txn>, batch: seq<Txn>, page: int)
    requires page != 1 && |prev| <= MaxResults
    ensures var r := Merged(prev, batch, page);
      |r| <= MaxResults && prev <= r
      && ((forall i, j :: 0 <= i < j < |prev| ==> prev[i].id != prev[j].id) ==>
            (forall i, j :: 0 <= i < j < |r| ==> r[i].id != r[j].id))
  {
    var added := NewItems(Ids(prev), batch);
    NewItemsAreNew(Ids(prev), batch);
    var all := prev + added;
    assert all[..|prev|] == prev;
    forall i, j | 0 <= i < j < |all| && (forall a, b :: 0 <= a < b < |prev| ==> prev[a].id != prev[b].id)
      ensures all[i].id != all[j].id
    {
      if j >= |prev| {
        assert all[j] == added[j - |prev|];
        if i >= |prev| {
          assert all[i] == added[i - |prev|];
        }
      }
    }
  }

  /** `setTotalFetched`: the batch size on page 1, else the capped sum. */
  function TotalFetched(prev: int, batchSize: int, page: int): (r: int)
    ensures page == 1 ==> r == batchSize
    ensures page != 1 ==> r <= MaxResults && r <= prev + batchSize && (r == MaxResults || r == prev + batchSize)
  {
    if page == 1 then batchSize else if prev + batchSize < MaxResults then prev + batchSize else MaxResults
  }

  /** The count never falls below the length of the list it describes: when
      it covered the previous list, it covers the merged one. */
  lemma CountCoversList(prev: seq<Txn>, batch: seq<Txn>, prevCount: int, page: int)
    requires |prev| <= prevCount
    ensures |Merged(prev, batch, page)| <= TotalFetched(prevCount, |batch|, page)
  {
  }

  /** On page 1 the count is not capped: a first batch of more than 200
      records reports its full size while the list holds only 200. */
  lemma FirstPageCountIsUncapped(prev: seq<Txn>, batch: seq<Txn>, prevCount: int)
    requires |batch| > MaxResults
    ensures |Merged(prev, batch, 1)| == MaxResults < TotalFetched(prevCount, |batch|, 1)
  {
  }

  // ---------------------------------------------------------------------
  // Search and status filters
  // ---------------------------------------------------------------------

  /** `txn.id.toLowerCase().includes(term) || txn.customerId.toLowerCase().includes(term)`:
      the second test runs only when the first is false. */
  function SearchMatch(t: Txn, term: string): Option<bool>
  {
    var byId := LowerIncludes(t.id, term);
    if byId.None? then None
    else if byId.value then Some(true)
    else LowerIncludes(t.customerId, term)
  }

  predicate SearchKeeps(term: string, t: Txn)
  {
    SearchMatch(t, term) == Some(true)
  }

  /** The status test; 'all' is handled before it is reached. */
  predicate StatusKeeps(filterStatus: string, t: Txn)
  {
    if filterStatus == "fraud" then t.isFraud
    else if filterStatus == "completed" || filterStatus == "pending" || filterStatus == "flagged"
    then t.status == Str(filterStatus)
    else false
  }

  /** The search stage: `None` when some item throws. */
  function SearchStage(data: seq<Txn>, term: string): (r: Option<seq<Txn>>)
    ensures r.Some? <==> forall i :: 0 <= i < |data| ==> SearchMatch(data[i], term).Some?
    ensures r.Some? ==> r.value == Filter(t => SearchKeeps(term, t), data)
  {
    if data == [] then Some([])
    else
      var head := SearchMatch(data[0], term);
      var tail := SearchStage(data[1..], term);
      if head.None? then None
      else if tail.None? then
        assert exists i :: 1 <= i < |data| && SearchMatch(data[i], term).None? by {
          var j :| 0 <= j < |data[1..]| && SearchMatch(data[1..][j], term).None?;
          assert data[j + 1] == data[1..][j];
        }
        None
      else Some((if head.value then [data[0]] else []) + tail.value)
  }

  /** The filtered list the effect stores, or `None` when it throws. */
  function View(transactions: seq<Txn>, searchTerm: string, filterStatus: string): (r: Option<seq<Txn>>)
    ensures r.Some? <==> (searchTerm == "" ||
      (forall i :: 0 <= i < |transactions| ==> SearchMatch(transactions[i], Lower(searchTerm)).Some?))
    ensures r.Some? ==> |r.value| <= |transactions|
  {
    var searched := if searchTerm != "" then SearchStage(transactions, Lower(searchTerm)) else Some(transactions);
    if searched.None? then None
    else if filterStatus != "all" then Some(Filter(t => StatusKeeps(filterStatus, t), searched.value))
    else searched
  }

  /** The filter effect: `data` is narrowed stage by stage. */
  method ApplyFilters(transactions: seq<Txn>, searchTerm: string, filterStatus: string) returns (r: Option<seq<Txn>>)
    ensures r == View(transactions, searchTerm, filterStatus)
  {
    var data := transactions;
    if searchTerm != "" {
      var term := Lower(searchTerm);
      var searched := SearchStage(data, term);
      if searched.None? {
        return None;
      }
      data := searched.value;
    }
    if filterStatus != "all" {
      data := Filter(t => StatusKeeps(filterStatus, t), data);
    }
    r := Some(data);
  }

  /** What a transaction must satisfy to stay in the view. */
  predicate ViewKeeps(searchTerm: string, filterStatus: string, t: Txn)
  {
    (searchTerm != "" ==> SearchKeeps(Lower(searchTerm), t))
    && (filterStatus != "all" ==> StatusKeeps(filterStatus, t))
  }

  /** The two stages are one filter by both tests. */
  lemma ViewIsFilter(transactions: seq<Txn>, searchTerm: string, filterStatus: string)
    requires View(transactions, searchTerm, filterStatus).Some?
    ensures View(transactions, searchTerm, filterStatus).value
      == Filter(t => ViewKeeps(searchTerm, filterStatus, t), transactions)
  {
    var term := Lower(searchTerm);
    var bySearch := t => searchTerm != "" ==> SearchKeeps(term, t);
    var byStatus := t => filterStatus != "all" ==> StatusKeeps(filterStatus, t);
    var searched := if searchTerm != "" then SearchStage(transactions, term).value else transactions;
    if searchTerm != "" {
      FilterExt(t => SearchKeeps(term, t), bySearch, transactions);
    } else {
      FilterAll(bySearch, transactions);
    }
    if filterStatus != "all" {
      FilterExt(t => StatusKeeps(filterStatus, t), byStatus, searched);
    } else {
      FilterAll(byStatus, searched);
    }
    FilterCompose(bySearch, byStatus, t => ViewKeeps(searchTerm, filterStatus, t), transactions);
  }

  /** The filters keep a subsequence of the list in its order; every item
      kept passes the status test; 'all' with an empty search keeps
      everything, and an unknown status keeps nothing. */
  lemma ViewIsSubsequence(transactions: seq<Txn>, searchTerm: string, filterStatus: string)
    requires View(transactions, searchTerm, filterStatus).Some?
    ensures IsSubsequence(View(transactions, searchTerm, filterStatus).value, transactions)
    ensures filterStatus != "all" ==>
      forall t :: t in View(transactions, searchTerm, filterStatus).value ==> StatusKeeps(filterStatus, t)
    ensures searchTerm == "" && filterStatus == "all" ==> View(transactions, searchTerm, filterStatus).value == transactions
    ensures filterStatus !in ["all", "fraud", "completed", "pending", "flagged"] ==>
      View(transactions, searchTerm, filterStatus).value == []
    ensures forall t :: t in View(transactions, searchTerm, filterStatus).value <==>
      t in transactions && ViewKeeps(searchTerm, filterStatus, t)
  {
    ViewIsFilter(transactions, searchTerm, filterStatus);
    forall t ensures t in Filter(t => ViewKeeps(searchTerm, filterStatus, t), transactions) <==>
      t in transactions && ViewKeeps(searchTerm, filterStatus, t) {
      FilterMembership(t => ViewKeeps(searchTerm, filterStatus, t), transactions, t);
    }
    var searched := if searchTerm != "" then SearchStage(transactions, Lower(searchTerm)) else Some(transactions);
    if searchTerm != "" {
      FilterIsSubsequence(t => SearchKeeps(Lower(searchTerm), t), transactions);
    } else {
      SubsequenceRefl(transactions);
    }
    if filterStatus != "all" {
      var p := t => StatusKeeps(filterStatus, t);
      FilterIsSubsequence(p, searched.value);
      SubsequenceTrans(Filter(p, searched.value), searched.value, transactions);
      forall t | t in Filter(p, searched.value) ensures StatusKeeps(filterStatus, t) {
        FilterMembership(p, searched.value, t);
      }
      if filterStatus !in ["all", "fraud", "completed", "pending", "flagged"] {
        NothingPasses(filterStatus, searched.value);
      }
    }
  }

  lemma {:induction false} NothingPasses(filterStatus: string, s: seq<Txn>)
    requires filterStatus !in ["all", "fraud", "completed", "pending", "flagged"]
    ensures Filter(t => StatusKeeps(filterStatus, t), s) == []
  {
    if s != [] {
      NothingPasses(filterStatus, s[1..]);
    }
  }

  // ---------------------------------------------------------------------
  // Client-side paging
  // ---------------------------------------------------------------------

  /** `Math.ceil(n / PAGE_SIZE) || 1` */
  function TotalPages(n: nat): (r: int)
    ensures r >= 1
    ensures n > 0 ==> (r - 1) * PageSize < n <= r * PageSize
    ensures n == 0 ==> r == 1
  {
    if n == 0 then 1 else (n + PageSize - 1) / PageSize
  }

  /** A `slice` index: negative counts from the end; both clamp to the length. */
  function SliceIndex(i: int, len: nat): (r: nat)
    ensures r <= len
    ensures 0 <= i <= len ==> r == i
    ensures i > len ==> r == len
    ensures i < 0 ==> r == (if len + i < 0 then 0 else len + i)
  {
    if i < 0 then (if len + i < 0 then 0 else len + i) else if i > len then len else i
  }

  /** `s.slice(start, end)` */
  function Slice<T>(s: seq<T>, start: int, end: int): seq<T>
  {
    var a := SliceIndex(start, |s|);
    var b := SliceIndex(end, |s|);
    if a <= b then s[a..b] else []
  }

  /** `filteredTransactions.slice((currentPage - 1) * PAGE_SIZE, currentPage * PAGE_SIZE)` */
  function PageSlice(items: seq<Txn>, currentPage: int): (r: seq<Txn>)
    ensures |r| <= PageSize
    ensures 1 <= currentPage && currentPage * PageSize <= |items| ==>
      r == items[(currentPage - 1) * PageSize..currentPage * PageSize]
  {
    Slice(items, (currentPage - 1) * PageSize, currentPage * PageSize)
  }

  /** A page never shows more than 15 items, and for a page in range it
      shows exactly the items at positions `(page - 1) * 15` onwards. */
  lemma PageSliceBounded(items: seq<Txn>, currentPage: int)
    ensures |PageSlice(items, currentPage)| <= PageSize
    ensures 1 <= currentPage <= TotalPages(|items|) && items != [] ==>
      PageSlice(items, currentPage) != []
      && PageSlice(items, currentPage)[0] == items[(currentPage - 1) * PageSize]
  {
  }

  /** `handlePrev` */
  function PrevPage(currentPage: int): (r: int)
    ensures currentPage >= 1 ==> r >= 1
    ensures currentPage > 1 ==> r == currentPage - 1
    ensures currentPage <= 1 ==> r == currentPage
  {
    if currentPage > 1 then currentPage - 1 else currentPage
  }
}
