/**
 * The admin page: a selection of sweepstakes ids toggled one at a time, a
 * cache of display details filled from the SDK, and the bulk delete that
 * counts successes and failures.
 */
module SweepstakesAdmin {
  import opened Js
  import opened JsString

  // ---------------------------------------------------------------------
  // Selection
  // ---------------------------------------------------------------------

  /** `s.filter(y => y !== x)`. */
  function Remove(s: seq<string>, x: string): (r: seq<string>)
    ensures x !in r
    ensures forall y :: y in r ==> y in s
    ensures forall y :: y in s && y != x ==> y in r
    ensures |r| <= |s|
  {
    if s == [] then []
    else if s[|s| - 1] == x then Remove(s[..|s| - 1], x)
    else Remove(s[..|s| - 1], x) + [s[|s| - 1]]
  }

  /** `toggleSelection`: a present id is removed (every copy), an absent one is appended. */
  function Toggle(s: seq<string>, x: string): (r: seq<string>)
    ensures x in r <==> x !in s
    ensures forall y :: y != x ==> (y in r <==> y in s)
  {
    if x in s then Remove(s, x) else s + [x]
  }

  lemma {:induction false} RemoveAbsent(s: seq<string>, x: string)
    requires x !in s
    ensures Remove(s, x) == s
  {
    if s != [] {
      RemoveAbsent(s[..|s| - 1], x);
    }
  }

  lemma RemoveAppend(s: seq<string>, y: string, x: string)
    ensures Remove(s + [y], x) == if y == x then Remove(s, x) else Remove(s, x) + [y]
  {
    assert (s + [y])[..|s|] == s;
  }

  /** Removing keeps every other id as often as before and drops every copy of `x`. */
  lemma {:induction false} RemoveCounts(s: seq<string>, x: string)
    ensures multiset(Remove(s, x)) == multiset(s)[x := 0]
  {
    if s != [] {
      var p := s[..|s| - 1];
      RemoveCounts(p, x);
      assert s == p + [s[|s| - 1]];
    }
  }

  /** Removing from a duplicate-free list leaves it duplicate-free. */
  lemma {:induction false} RemoveNoDuplicates(s: seq<string>, x: string)
    requires NoDuplicates(s)
    ensures NoDuplicates(Remove(s, x))
  {
    if s != [] {
      var p := s[..|s| - 1];
      assert NoDuplicates(p) by {
        forall i, j | 0 <= i < j < |p| ensures p[i] != p[j] {
          assert p[i] == s[i] && p[j] == s[j];
        }
      }
      RemoveNoDuplicates(p, x);
      var last := s[|s| - 1];
      if last != x {
        assert last !in p by {
          forall i | 0 <= i < |p| ensures p[i] != last {
            assert p[i] == s[i];
          }
        }
      }
    }
  }

  /** Apart from `x`, a toggled list is the old list, element for element and in order. */
  lemma ToggleKeepsOthersInOrder(s: seq<string>, x: string)
    ensures Remove(Toggle(s, x), x) == Remove(s, x)
  {
    if x !in s {
      RemoveAppend(s, x, x);
    } else {
      RemoveAbsent(Remove(s, x), x);
    }
  }

  /** A toggled duplicate-free selection is duplicate-free. */
  lemma ToggleNoDuplicates(s: seq<string>, x: string)
    requires NoDuplicates(s)
    ensures NoDuplicates(Toggle(s, x))
  {
    if x in s {
      RemoveNoDuplicates(s, x);
    }
  }

  /** Toggling an absent id twice gives back the selection. */
  lemma ToggleTwice(s: seq<string>, x: string)
    requires x !in s
    ensures Toggle(Toggle(s, x), x) == s
  {
    assert x in s + [x];
    RemoveAppend(s, x, x);
    RemoveAbsent(s, x);
  }

  // ---------------------------------------------------------------------
  // Details cache
  // ---------------------------------------------------------------------

  const Untitled := "Untitled"
  const NoDescription := "No description"
  const NotAvailable := "N/A"

  /** The parsed details blob; any field may be missing. */
  datatype Details = Details(name: Option<string>, description: Option<string>, prize: Option<string>, endDate: Option<string>)

  /**
   * What `viewSweepstakes(id)` resolved to, as far as the page reads it: no
   * record or no details text, details that do not parse, or parsed details
   * together with the host's locale rendering of their end date.
   */
  datatype Fetched = NoDetails | Unparsable | Parsed(details: Details, localeEndDate: string)

  /** One cache entry. */
  datatype CacheEntry = CacheEntry(name: string, description: string, prize: string, endDate: string, isValid: bool, isLoaded: bool)

  /** The entry cached when the fetch throws. */
  const ErrorEntry := CacheEntry("Error", "Failed to load details", NotAvailable, NotAvailable, true, true)

  /** `field?.trim() || fallback`: the trimmed field, unless missing or blank. */
  function OrDefault(field: Option<string>, fallback: string): (r: string)
    ensures r == fallback || (r != [] && IsTrimmed(r))
    ensures field.None? ==> r == fallback
    ensures field.Some? && Trim(field.value) == [] ==> r == fallback
    ensures field.Some? && Trim(field.value) != [] ==> r == Trim(field.value)
  {
    if field.Some? && Trim(field.value) != [] then
      TrimProperties(field.value);
      Trim(field.value)
    else fallback
  }

  /** A description longer than 100 characters is cut to 97 and marked with "...": at most 100 remain. */
  function Truncate(d: string): (r: string)
    ensures |d| <= 100 ==> r == d
    ensures |d| > 100 ==> |r| == 100 && r[..97] == d[..97] && r[97..] == "..."
    ensures |r| <= 100
  {
    if |d| > 100 then d[..97] + "..." else d
  }

  /** The entry cached for one fetch. */
  function EntryFor(reply: Reply<Fetched>): (e: CacheEntry)
    ensures e.isLoaded && e.isValid
    ensures |e.description| <= 100
    ensures reply.Threw? ==> e == ErrorEntry
    ensures reply.Returned? && !reply.value.Parsed? ==>
      e == CacheEntry(Untitled, NoDescription, NotAvailable, NotAvailable, true, true)
    ensures reply.Returned? && reply.value.Parsed? ==>
      var d := reply.value.details;
      && e.name == OrDefault(d.name, Untitled)
      && e.description == Truncate(OrDefault(d.description, NoDescription))
      && e.prize == OrDefault(d.prize, NotAvailable)
      && e.endDate == (if Truthy(d.endDate) then reply.value.localeEndDate else NotAvailable)
  {
    match reply
    case Threw(_) => ErrorEntry
    case Returned(NoDetails) => CacheEntry(Untitled, NoDescription, NotAvailable, NotAvailable, true, true)
    case Returned(Unparsable) => CacheEntry(Untitled, NoDescription, NotAvailable, NotAvailable, true, true)
    case Returned(Parsed(d, localeEndDate)) =>
      CacheEntry(OrDefault(d.name, Untitled),
                 Truncate(OrDefault(d.description, NoDescription)),
                 OrDefault(d.prize, NotAvailable),
                 if Truthy(d.endDate) then localeEndDate else NotAvailable,
                 true, true)
  }

  predicate IsLoadedIn(cache: map<string, CacheEntry>, id: string)
  {
    id in cache && cache[id].isLoaded
  }

  /**
   * The cache after the fill loop has visited `ids`, the i-th fetch giving
   * `replies[i]`. Whether an id is skipped is decided on the cache as it was
   * when the loop started, while each write lands on the latest cache.
   */
  function Filled(start: map<string, CacheEntry>, ids: seq<string>, replies: seq<Reply<Fetched>>): map<string, CacheEntry>
    requires |replies| == |ids|
  {
    if ids == [] then start
    else
      var n := |ids| - 1;
      var prev := Filled(start, ids[..n], replies[..n]);
      if IsLoadedIn(start, ids[n]) then prev else prev[ids[n] := EntryFor(replies[n])]
  }

  /** An entry already loaded when the fill starts is left as it was. */
  lemma {:induction false} FilledKeepsLoaded(start: map<string, CacheEntry>, ids: seq<string>, replies: seq<Reply<Fetched>>)
    requires |replies| == |ids|
    ensures var c := Filled(start, ids, replies);
      forall id :: IsLoadedIn(start, id) ==> id in c && c[id] == start[id]
  {
    if ids != [] {
      var n := |ids| - 1;
      FilledKeepsLoaded(start, ids[..n], replies[..n]);
    }
  }

  /** After the fill every listed id is cached and loaded, whether its fetch resolved or threw. */
  lemma {:induction false} FilledLoadsListed(start: map<string, CacheEntry>, ids: seq<string>, replies: seq<Reply<Fetched>>)
    requires |replies| == |ids|
    ensures var c := Filled(start, ids, replies);
      forall id :: id in ids ==> IsLoadedIn(c, id)
  {
    if ids != [] {
      var n := |ids| - 1;
      FilledLoadsListed(start, ids[..n], replies[..n]);
      FilledKeepsLoaded(start, ids, replies);
      var c := Filled(start, ids, replies);
      forall id | id in ids ensures IsLoadedIn(c, id) {
        if id != ids[n] {
          assert id in ids[..n] by {
            var k :| 0 <= k < |ids| && ids[k] == id;
            assert ids[..n][k] == id;
          }
        }
      }
    }
  }

  /** The fill adds exactly the listed ids as keys. */
  lemma {:induction false} FilledKeys(start: map<string, CacheEntry>, ids: seq<string>, replies: seq<Reply<Fetched>>)
    requires |replies| == |ids|
    ensures Filled(start, ids, replies).Keys == start.Keys + set id | id in ids
  {
    if ids != [] {
      var n := |ids| - 1;
      FilledKeys(start, ids[..n], replies[..n]);
      assert ids == ids[..n] + [ids[n]];
    }
  }

  /** Every entry after the fill is an old one or a freshly loaded one with a short description. */
  lemma {:induction false} FilledEntries(start: map<string, CacheEntry>, ids: seq<string>, replies: seq<Reply<Fetched>>)
    requires |replies| == |ids|
    ensures var c := Filled(start, ids, replies);
      forall id :: id in c ==> (id in start && c[id] == start[id]) || (c[id].isLoaded && |c[id].description| <= 100)
  {
    if ids != [] {
      var n := |ids| - 1;
      FilledEntries(start, ids[..n], replies[..n]);
    }
  }

  /** A cache whose descriptions are short stays so after a fill. */
  lemma {:induction false} FilledKeepsDescriptionsShort(start: map<string, CacheEntry>, ids: seq<string>, replies: seq<Reply<Fetched>>)
    requires |replies| == |ids|
    requires forall id :: id in start ==> |start[id].description| <= 100
    ensures var c := Filled(start, ids, replies);
      forall id :: id in c ==> |c[id].description| <= 100
  {
    FilledEntries(start, ids, replies);
  }

  // ---------------------------------------------------------------------
  // Bulk delete
  // ---------------------------------------------------------------------

  /** How many deletions resolved (true) rather than threw (false). */
  function SuccessCount(outcomes: seq<bool>): (n: nat)
    ensures n <= |outcomes|
    ensures n == 0 <==> forall i :: 0 <= i < |outcomes| ==> !outcomes[i]
    ensures n == |outcomes| <==> forall i :: 0 <= i < |outcomes| ==> outcomes[i]
  {
    if outcomes == [] then 0
    else SuccessCount(outcomes[..|outcomes| - 1]) + (if outcomes[|outcomes| - 1] then 1 else 0)
  }

  /** The counting loop of `handleDeleteSelected`. */
  method CountDeletions(outcomes: seq<bool>) returns (successCount: nat, failCount: nat)
    ensures successCount == SuccessCount(outcomes)
    ensures successCount + failCount == |outcomes|
  {
    successCount, failCount := 0, 0;
    for i := 0 to |outcomes|
      invariant successCount == SuccessCount(outcomes[..i])
      invariant successCount + failCount == i
    {
      assert outcomes[..i + 1][..i] == outcomes[..i];
      if outcomes[i] {
        successCount := successCount + 1;
      } else {
        failCount := failCount + 1;
      }
    }
    assert outcomes[..|outcomes|] == outcomes;
  }

  function DeletedMessage(n: nat): string
  {
    "Successfully deleted " + DecimalString(n) + " sweepstakes."
  }

  function DeleteFailedMessage(n: nat): string
  {
    "Failed to delete " + DecimalString(n) + " sweepstakes."
  }

  // ---------------------------------------------------------------------
  // The page state
  // ---------------------------------------------------------------------

  class AdminPage {
    var selected: seq<string>
    var isDeleting: bool
    var error: Option<string>
    var success: Option<string>
    var cache: map<string, CacheEntry>

    /** The selection never holds an id twice, and cached descriptions are at most 100 characters. */
    ghost predicate Valid()
      reads this
    {
      && NoDuplicates(selected)
      && forall id :: id in cache ==> |cache[id].description| <= 100
    }

    /** The page's initial hook values. */
    constructor ()
      ensures Valid()
      ensures selected == [] && !isDeleting && error == None && success == None && cache == map[]
    {
      selected := [];
      isDeleting := false;
      error := None;
      success := None;
      cache := map[];
    }

    method ToggleSelection(id: string)
      requires Valid()
      modifies this
      ensures Valid()
      ensures selected == Toggle(old(selected), id)
      ensures isDeleting == old(isDeleting) && error == old(error) && success == old(success) && cache == old(cache)
    {
      ToggleNoDuplicates(selected, id);
      selected := Toggle(selected, id);
    }

    /**
     * `loadSweepstakesDetails`: without a client nothing happens; otherwise
     * each listed id not loaded at the start is fetched and cached, a throw
     * caching the error entry.
     */
    method LoadSweepstakesDetails(hasClient: bool, ids: seq<string>, replies: seq<Reply<Fetched>>)
      requires Valid()
      requires |replies| == |ids|
      modifies this
      ensures Valid()
      ensures cache == if hasClient then Filled(old(cache), ids, replies) else old(cache)
      ensures selected == old(selected) && isDeleting == old(isDeleting) && error == old(error) && success == old(success)
    {
      if !hasClient {
        return;
      }
      FilledKeepsDescriptionsShort(cache, ids, replies);
      var start := cache;
      var updated := cache;
      for i := 0 to |ids|
        invariant updated == Filled(start, ids[..i], replies[..i])
      {
        assert ids[..i + 1][..i] == ids[..i];
        assert replies[..i + 1][..i] == replies[..i];
        var id := ids[i];
        if !IsLoadedIn(start, id) {
          updated := updated[id := EntryFor(replies[i])];
        }
      }
      assert ids[..|ids|] == ids && replies[..|replies|] == replies;
      cache := updated;
    }

    /**
     * `handleDeleteSelected`: without a client or a selection nothing
     * happens. Otherwise each selected id is deleted, `outcomes[i]` telling
     * whether the i-th deletion resolved. Any success is reported, clears the
     * selection and asks for the listing to be reloaded; any failure is
     * reported as an error; deleting ends cleared.
     */
    method HandleDeleteSelected(hasClient: bool, outcomes: seq<bool>) returns (reloadRequested: bool)
      requires Valid()
      requires |outcomes| == |selected|
      modifies this
      ensures Valid()
      ensures cache == old(cache)
      ensures !hasClient || old(selected) == [] ==>
        !reloadRequested && selected == old(selected) && isDeleting == old(isDeleting)
        && error == old(error) && success == old(success)
      ensures hasClient && old(selected) != [] ==>
        var s := SuccessCount(outcomes); var f := |outcomes| - s;
        && reloadRequested == (s > 0)
        && selected == (if s > 0 then [] else old(selected))
        && success == (if s > 0 then Some(DeletedMessage(s)) else None)
        && error == (if f > 0 then Some(DeleteFailedMessage(f)) else None)
        && !isDeleting
    {
      if !hasClient || |selected| == 0 {
        return false;
      }
      isDeleting := true;
      error := None;
      success := None;
      var successCount, failCount := CountDeletions(outcomes);
      reloadRequested := false;
      if successCount > 0 {
        success := Some(DeletedMessage(successCount));
        selected := [];
        reloadRequested := true;
      }
      if failCount > 0 {
        error := Some(DeleteFailedMessage(failCount));
      }
      isDeleting := false;
    }
  }
}
