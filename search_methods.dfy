/**
 * `SearchMethods.searchContent`: a GET on "api/v2/search" whose parameters `buildParameters`
 * appends one by one: the query and the offset always, the flags only when set, the type by its
 * enum name, the ids only when they hold more than blanks, and the limit clamped into 20..40.
 */
module SearchMethods {
  import opened Wrappers
  import opened Text
  import opened ParameterLists
  import opened Http
  import opened Client

  const SEARCH_ENDPOINT := "api/v2/search"
  const MIN_LIMIT := 20
  const MAX_LIMIT := 40

  /** Every key `buildParameters` may append, in the order it appends them. */
  const SEARCH_KEYS := ["q", "offset", "resolve", "following", "exclude_unreviewed", "type",
                        "account_id", "max_id", "min_id", "limit"]

  datatype SearchType = ACCOUNTS | HASHTAGS | STATUSES {
    /** The enum constant's name. */
    function Name(): string {
      match this
      case ACCOUNTS => "ACCOUNTS"
      case HASHTAGS => "HASHTAGS"
      case STATUSES => "STATUSES"
    }

    /** The constant's `type` property. */
    function Type(): string {
      match this
      case ACCOUNTS => "accounts"
      case HASHTAGS => "hashtags"
      case STATUSES => "statuses"
    }
  }

  /** Kotlin's `coerceIn(lo, hi)`. */
  function CoerceIn(x: int, lo: int, hi: int): (y: int)
    requires lo <= hi
    ensures lo <= y <= hi
    ensures lo <= x <= hi ==> y == x
    ensures x < lo ==> y == lo
    ensures x > hi ==> y == hi
  {
    if x < lo then lo else if x > hi then hi else x
  }

  /** `!s.isNullOrEmpty() && s.isNotBlank()`. */
  predicate Usable(s: Option<string>) {
    s.Some? && |s.value| > 0 && !IsBlank(s.value)
  }

  /** The entries `buildParameters` may append, each with the condition under which it does. */
  function SearchSlots(query: string, searchType: Option<SearchType>, resolve: bool, following: bool,
                       excludeUnreviewed: bool, accountId: Option<string>, maxId: Option<string>,
                       minId: Option<string>, limit: Option<Int32>, offset: Option<Int32>): seq<Slot>
  {
    [ Slot(true, Entry("q", Text(query))),
      Slot(true, Entry("offset", Number(offset.GetOr(0)))),
      Slot(resolve, Entry("resolve", Flag(true))),
      Slot(following, Entry("following", Flag(true))),
      Slot(excludeUnreviewed, Entry("exclude_unreviewed", Flag(true))),
      Slot(searchType.Some?, Entry("type", Text(if searchType.Some? then searchType.value.Name() else ""))),
      Slot(Usable(accountId), Entry("account_id", Text(accountId.GetOr("")))),
      Slot(Usable(maxId), Entry("max_id", Text(maxId.GetOr("")))),
      Slot(Usable(minId), Entry("min_id", Text(minId.GetOr("")))),
      Slot(limit.Some?, Entry("limit", Number(CoerceIn(limit.GetOr(0), MIN_LIMIT, MAX_LIMIT)))) ]
  }

  /** `Present` of ten slots, written out slot by slot. */
  lemma {:induction false} SlotsUnrolled(slots: seq<Slot>)
    requires |slots| == 10
    ensures Present(slots) == Contribution(slots[0]) + Contribution(slots[1]) + Contribution(slots[2])
      + Contribution(slots[3]) + Contribution(slots[4]) + Contribution(slots[5]) + Contribution(slots[6])
      + Contribution(slots[7]) + Contribution(slots[8]) + Contribution(slots[9])
  {
    assert slots[..0] == [];
    PresentStep(slots, 0);
    ghost var acc := Contribution(slots[0]);
    assert Present(slots[..1]) == acc;
    PresentStep(slots, 1); acc := acc + Contribution(slots[1]); assert Present(slots[..2]) == acc;
    PresentStep(slots, 2); acc := acc + Contribution(slots[2]); assert Present(slots[..3]) == acc;
    PresentStep(slots, 3); acc := acc + Contribution(slots[3]); assert Present(slots[..4]) == acc;
    PresentStep(slots, 4); acc := acc + Contribution(slots[4]); assert Present(slots[..5]) == acc;
    PresentStep(slots, 5); acc := acc + Contribution(slots[5]); assert Present(slots[..6]) == acc;
    PresentStep(slots, 6); acc := acc + Contribution(slots[6]); assert Present(slots[..7]) == acc;
    PresentStep(slots, 7); acc := acc + Contribution(slots[7]); assert Present(slots[..8]) == acc;
    PresentStep(slots, 8); acc := acc + Contribution(slots[8]); assert Present(slots[..9]) == acc;
    PresentStep(slots, 9); acc := acc + Contribution(slots[9]); assert Present(slots[..10]) == acc;
    assert slots[..10] == slots;
  }

  /** The search slots' present entries, written out one slot at a time, in the order they are appended. */
  function SearchEntries(query: string, searchType: Option<SearchType>, resolve: bool, following: bool,
                         excludeUnreviewed: bool, accountId: Option<string>, maxId: Option<string>,
                         minId: Option<string>, limit: Option<Int32>, offset: Option<Int32>): seq<Entry>
  {
    [Entry("q", Text(query))]
    + [Entry("offset", Number(offset.GetOr(0)))]
    + Contribution(Slot(resolve, Entry("resolve", Flag(true))))
    + Contribution(Slot(following, Entry("following", Flag(true))))
    + Contribution(Slot(excludeUnreviewed, Entry("exclude_unreviewed", Flag(true))))
    + Contribution(Slot(searchType.Some?, Entry("type", Text(if searchType.Some? then searchType.value.Name() else ""))))
    + Contribution(Slot(Usable(accountId), Entry("account_id", Text(accountId.GetOr("")))))
    + Contribution(Slot(Usable(maxId), Entry("max_id", Text(maxId.GetOr("")))))
    + Contribution(Slot(Usable(minId), Entry("min_id", Text(minId.GetOr("")))))
    + Contribution(Slot(limit.Some?, Entry("limit", Number(CoerceIn(limit.GetOr(0), MIN_LIMIT, MAX_LIMIT)))))
  }

  /** The written-out entries are the present entries of the search slots. */
  lemma {:induction false} SearchEntriesPresent(query: string, searchType: Option<SearchType>, resolve: bool, following: bool,
                         excludeUnreviewed: bool, accountId: Option<string>, maxId: Option<string>,
                         minId: Option<string>, limit: Option<Int32>, offset: Option<Int32>)
    ensures SearchEntries(query, searchType, resolve, following, excludeUnreviewed, accountId, maxId, minId, limit, offset)
         == Present(SearchSlots(query, searchType, resolve, following, excludeUnreviewed, accountId, maxId, minId, limit, offset))
  {
    var slots := SearchSlots(query, searchType, resolve, following, excludeUnreviewed, accountId, maxId, minId, limit, offset);
    SlotsUnrolled(slots);
    assert Contribution(slots[0]) == [Entry("q", Text(query))];
    assert Contribution(slots[1]) == [Entry("offset", Number(offset.GetOr(0)))];
  }

  /**
   * `buildParameters`: a fresh `Parameters` holding the query and the offset, then each optional
   * entry whose condition holds, in the order written out by `SearchEntries`.
   */
  method BuildParameters(query: string, searchType: Option<SearchType>, resolve: bool, following: bool,
                         excludeUnreviewed: bool, accountId: Option<string>, maxId: Option<string>,
                         minId: Option<string>, limit: Option<Int32>, offset: Option<Int32>)
    returns (p: Parameters)
    ensures fresh(p)
    ensures p.entries == SearchEntries(query, searchType, resolve, following, excludeUnreviewed,
                                       accountId, maxId, minId, limit, offset)
  {
    p := new Parameters();
    var _ := p.Append("q", Text(query));
    var _ := p.Append("offset", Number(offset.GetOr(0)));
    assert p.entries == [Entry("q", Text(query))] + [Entry("offset", Number(offset.GetOr(0)))];
    p.AppendWhen(resolve, "resolve", Flag(true));
    p.AppendWhen(following, "following", Flag(true));
    p.AppendWhen(excludeUnreviewed, "exclude_unreviewed", Flag(true));
    p.AppendWhen(searchType.Some?, "type", Text(if searchType.Some? then searchType.value.Name() else ""));
    p.AppendWhen(Usable(accountId), "account_id", Text(accountId.GetOr("")));
    p.AppendWhen(Usable(maxId), "max_id", Text(maxId.GetOr("")));
    p.AppendWhen(Usable(minId), "min_id", Text(minId.GetOr("")));
    p.AppendWhen(limit.Some?, "limit", Number(CoerceIn(limit.GetOr(0), MIN_LIMIT, MAX_LIMIT)));
  }

  /** `searchContent`: always a GET on the search endpoint, with the parameters above. */
  method SearchContent(query: string, searchType: Option<SearchType> := None, resolve: bool := false,
                       following: bool := false, excludeUnreviewed: bool := false,
                       accountId: Option<string> := None, maxId: Option<string> := None,
                       minId: Option<string> := None, limit: Option<Int32> := None, offset: Option<Int32> := None)
    returns (request: MastodonRequest)
    ensures request == GetMastodonRequest(SEARCH_ENDPOINT, GET,
      Some(Present(SearchSlots(query, searchType, resolve, following, excludeUnreviewed, accountId, maxId, minId, limit, offset))))
  {
    var parameters := BuildParameters(query, searchType, resolve, following, excludeUnreviewed,
                                      accountId, maxId, minId, limit, offset);
    SearchEntriesPresent(query, searchType, resolve, following, excludeUnreviewed, accountId, maxId, minId, limit, offset);
    request := GetMastodonRequest(SEARCH_ENDPOINT, GET, Some(parameters.entries));
  }

  lemma {:induction false} SearchKeysDistinct()
    ensures Distinct(SEARCH_KEYS)
  {
    forall i, j | 0 <= i < j < |SEARCH_KEYS| ensures SEARCH_KEYS[i] != SEARCH_KEYS[j] {
      assert SEARCH_KEYS[i][0] != SEARCH_KEYS[j][0] || |SEARCH_KEYS[i]| != |SEARCH_KEYS[j]|
          || SEARCH_KEYS[i][1] != SEARCH_KEYS[j][1];
    }
  }

  /** The entries always follow the fixed key order; absent keys are left out, never reordered. */
  lemma {:induction false} SearchKeyOrder(query: string, searchType: Option<SearchType>, resolve: bool, following: bool,
                                          excludeUnreviewed: bool, accountId: Option<string>, maxId: Option<string>,
                                          minId: Option<string>, limit: Option<Int32>, offset: Option<Int32>)
    ensures var slots := SearchSlots(query, searchType, resolve, following, excludeUnreviewed, accountId, maxId, minId, limit, offset);
      SubsequenceOf(Keys(Present(slots)), SEARCH_KEYS)
  {
    var slots := SearchSlots(query, searchType, resolve, following, excludeUnreviewed, accountId, maxId, minId, limit, offset);
    PresentInOrder(slots);
    assert SlotKeys(slots) == SEARCH_KEYS;
  }

  /** The entries start with the query, then the offset, which is 0 when none is given. */
  lemma {:induction false} SearchStartsWithQueryAndOffset(query: string, searchType: Option<SearchType>, resolve: bool, following: bool,
                                                          excludeUnreviewed: bool, accountId: Option<string>, maxId: Option<string>,
                                                          minId: Option<string>, limit: Option<Int32>, offset: Option<Int32>)
    ensures var entries := Present(SearchSlots(query, searchType, resolve, following, excludeUnreviewed, accountId, maxId, minId, limit, offset));
      |entries| >= 2 && entries[0] == Entry("q", Text(query)) && entries[1] == Entry("offset", Number(offset.GetOr(0)))
  {
    var slots := SearchSlots(query, searchType, resolve, following, excludeUnreviewed, accountId, maxId, minId, limit, offset);
    PresentConcat(slots[..2], slots[2..]);
    assert slots[..2] + slots[2..] == slots;
    PresentStep(slots[..2], 0);
    PresentStep(slots[..2], 1);
    assert slots[..2][..0] == [] && slots[..2][..2] == slots[..2];
  }

  /**
   * Each flag is sent, with value true, exactly when it is set; the type is sent exactly when one
   * is given, by its enum name (e.g. "ACCOUNTS", not "accounts").
   */
  lemma {:induction false} SearchFlagEntries(query: string, searchType: Option<SearchType>, resolve: bool, following: bool,
                                             excludeUnreviewed: bool, accountId: Option<string>, maxId: Option<string>,
                                             minId: Option<string>, limit: Option<Int32>, offset: Option<Int32>)
    ensures var entries := Present(SearchSlots(query, searchType, resolve, following, excludeUnreviewed, accountId, maxId, minId, limit, offset));
      && Lookup(entries, "resolve") == (if resolve then Some(Flag(true)) else None)
      && Lookup(entries, "following") == (if following then Some(Flag(true)) else None)
      && Lookup(entries, "exclude_unreviewed") == (if excludeUnreviewed then Some(Flag(true)) else None)
      && Lookup(entries, "type") == (if searchType.Some? then Some(Text(searchType.value.Name())) else None)
  {
    var slots := SearchSlots(query, searchType, resolve, following, excludeUnreviewed, accountId, maxId, minId, limit, offset);
    SearchKeysDistinct();
    assert SlotKeys(slots) == SEARCH_KEYS;
    PresentLookup(slots, 2); PresentLookup(slots, 3); PresentLookup(slots, 4); PresentLookup(slots, 5);
  }

  /**
   * The ids are sent exactly when they hold more than blanks, and the limit exactly when one is
   * given, clamped into 20..40.
   */
  lemma {:induction false} SearchIdAndLimitEntries(query: string, searchType: Option<SearchType>, resolve: bool, following: bool,
                                                   excludeUnreviewed: bool, accountId: Option<string>, maxId: Option<string>,
                                                   minId: Option<string>, limit: Option<Int32>, offset: Option<Int32>)
    ensures var entries := Present(SearchSlots(query, searchType, resolve, following, excludeUnreviewed, accountId, maxId, minId, limit, offset));
      && Lookup(entries, "account_id") == (if Usable(accountId) then Some(Text(accountId.value)) else None)
      && Lookup(entries, "max_id") == (if Usable(maxId) then Some(Text(maxId.value)) else None)
      && Lookup(entries, "min_id") == (if Usable(minId) then Some(Text(minId.value)) else None)
      && Lookup(entries, "limit") == (if limit.Some? then Some(Number(CoerceIn(limit.value, MIN_LIMIT, MAX_LIMIT))) else None)
  {
    var slots := SearchSlots(query, searchType, resolve, following, excludeUnreviewed, accountId, maxId, minId, limit, offset);
    SearchKeysDistinct();
    assert SlotKeys(slots) == SEARCH_KEYS;
    PresentLookup(slots, 6); PresentLookup(slots, 7); PresentLookup(slots, 8); PresentLookup(slots, 9);
  }

  /** A blank id (spaces only, or empty) is never sent; the emptiness test is subsumed by the blank test. */
  lemma {:induction false} BlankIdsSkipped(s: Option<string>)
    ensures Usable(s) <==> s.Some? && !IsBlank(s.value)
  {
    if s.Some? && |s.value| == 0 {
      assert IsBlank(s.value);
    }
  }

  /** The request's type is the constant's name, which differs from its lower-case `type` property. */
  lemma {:induction false} TypeSentByName(t: SearchType)
    ensures t.Name() != t.Type()
  {
    assert t.Name()[0] != t.Type()[0];
  }
}
