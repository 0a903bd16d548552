/**
 * The pull history list: a tolerant property reader that tries several
 * casings of a key, and the numbering and React keys of the listed pulls.
 */
module PullsHistory {
  import opened Js
  import opened JsString

  /** The default fallback of the property reader. */
  const Unknown: Value := Str("Unknown")

  /** `key.charAt(0).toUpperCase() + key.slice(1)`. */
  function UpperFirst(key: string): string
  {
    if key == [] then [] else [UpperChar(key[0])] + key[1..]
  }

  /** `key.charAt(0).toLowerCase() + key.slice(1)`. */
  function LowerFirst(key: string): string
  {
    if key == [] then [] else [LowerChar(key[0])] + key[1..]
  }

  /** The keys tried, in order: as given, lowercase, UPPERCASE, first letter upper, first letter lower. */
  function CandidateKeys(key: string): seq<string>
  {
    [key, ToLower(key), ToUpper(key), UpperFirst(key), LowerFirst(key)]
  }

  /** The position of the first of `keys` that `obj` has, or |keys| when it has none. */
  function FirstPresentIndex(obj: JsObject, keys: seq<string>): (i: nat)
    ensures i <= |keys|
    ensures forall j :: 0 <= j < i ==> keys[j] !in obj
    ensures i < |keys| ==> keys[i] in obj
  {
    if keys == [] then 0
    else if keys[0] in obj then 0
    else 1 + FirstPresentIndex(obj, keys[1..])
  }

  /**
   * What `getProperty(obj, key, fallback)` returns: the fallback for a
   * missing object or when no candidate key is present, and otherwise the
   * value under the first candidate key the object has.
   */
  function Lookup(obj: Option<JsObject>, key: string, fallback: Value): (r: Value)
    ensures obj.None? ==> r == fallback
    ensures obj.Some? && (forall k :: k in CandidateKeys(key) ==> k !in obj.value) ==> r == fallback
    ensures obj.Some? ==> var keys := CandidateKeys(key);
      forall i :: 0 <= i < |keys| && keys[i] in obj.value && (forall j :: 0 <= j < i ==> keys[j] !in obj.value) ==>
        r == obj.value[keys[i]]
    ensures r == fallback || exists k :: k in CandidateKeys(key) && obj.Some? && k in obj.value && r == obj.value[k]
  {
    if obj.None? then fallback
    else
      var keys := CandidateKeys(key);
      var i := FirstPresentIndex(obj.value, keys);
      if i < |keys| then obj.value[keys[i]] else fallback
  }

  /** `getProperty`: a first-match loop over the candidate keys with an early return. */
  method GetProperty(obj: Option<JsObject>, key: string, fallback: Value := Unknown) returns (v: Value)
    ensures v == Lookup(obj, key, fallback)
  {
    if obj.None? {
      return fallback;
    }
    var o := obj.value;
    var keys := CandidateKeys(key);
    for n := 0 to |keys|
      invariant forall j :: 0 <= j < n ==> keys[j] !in o
    {
      if keys[n] in o {
        return o[keys[n]];
      }
    }
    return fallback;
  }

  /** The `pulls` value as the list sees it: an array of records, or something else. */
  datatype PullsValue = PullArray(items: seq<JsObject>) | NotAnArray

  /** `Array.isArray(pulls) ? pulls : []`. */
  function PullsArray(pulls: PullsValue): seq<JsObject>
  {
    if pulls.PullArray? then pulls.items else []
  }

  /** The React key of a list item: the pull id, or the index when the id is unknown. */
  datatype ItemKey = IdKey(id: Value) | IndexKey(index: nat)

  /** What one list item shows. */
  datatype Row = Row(key: ItemKey, number: nat, pullId: Value, timestamp: Value, winner: Value, entrantsCount: Value)

  function RowAt(items: seq<JsObject>, index: nat): Row
    requires index < |items|
  {
    var pull := Some(items[index]);
    var pullId := Lookup(pull, "pullId", Unknown);
    Row(if pullId != Unknown then IdKey(pullId) else IndexKey(index),
        |items| - index,
        pullId,
        Lookup(pull, "timestamp", Unknown),
        Lookup(pull, "winner", Unknown),
        Lookup(pull, "entrantsCount", Unknown))
  }

  /**
   * The rendered list: one row per pull, none for a non-array. Rows are
   * numbered from the length down to 1, so the numbers are distinct; an item
   * is keyed by its index exactly when its pull id is unknown.
   */
  function Rows(pulls: PullsValue): (r: seq<Row>)
    ensures pulls.NotAnArray? ==> r == []
    ensures |r| == |PullsArray(pulls)|
    ensures forall i :: 0 <= i < |r| ==> 1 <= r[i].number <= |r|
    ensures forall i, j :: 0 <= i < j < |r| ==> r[i].number > r[j].number
    ensures forall i :: 0 <= i < |r| ==> (r[i].key.IndexKey? <==> r[i].pullId == Unknown)
    ensures forall i :: 0 <= i < |r| ==> r[i].key == (if r[i].pullId == Unknown then IndexKey(i) else IdKey(r[i].pullId))
    ensures forall i :: 0 <= i < |r| ==> r[i].pullId == Lookup(Some(PullsArray(pulls)[i]), "pullId", Unknown)
    ensures forall i :: 0 <= i < |r| ==> r[i].timestamp == Lookup(Some(PullsArray(pulls)[i]), "timestamp", Unknown)
    ensures forall i :: 0 <= i < |r| ==> r[i].winner == Lookup(Some(PullsArray(pulls)[i]), "winner", Unknown)
    ensures forall i :: 0 <= i < |r| ==> r[i].entrantsCount == Lookup(Some(PullsArray(pulls)[i]), "entrantsCount", Unknown)
  {
    var items := PullsArray(pulls);
    seq(|items|, i requires 0 <= i < |items| => RowAt(items, i))
  }

  /** Every number from 1 to the length labels some row: the labels are exactly 1..length. */
  lemma PullNumbersCoverOneToLength(pulls: PullsValue, k: nat)
    requires 1 <= k <= |PullsArray(pulls)|
    ensures exists i :: 0 <= i < |Rows(pulls)| && Rows(pulls)[i].number == k
  {
    var r := Rows(pulls);
    assert r[|r| - k].number == k;
  }

  /** The PascalCase spelling of a camelCase key is found when only it is present. */
  lemma PascalCaseFallback(v: Value)
    ensures Lookup(Some(map["PullId" := v]), "pullId", Unknown) == v
  {
    var keys := CandidateKeys("pullId");
    assert keys[1] == "pullid";
    assert keys[2] == "PULLID";
    assert keys[3] == "PullId";
  }
}
