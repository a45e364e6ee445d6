/**
 * Version negotiation and per-request selection: src/negotiation/intersection.rs, src/request/version.rs and
 * the capability set of kafka-driver-core.
 */
module Negotiation {
  import opened Common
  import opened Requests
  import opened Sorting

  datatype Advertised = Advertised(key: int, min: int, max: int)

  /** A locally implemented API; `stable` is its latest stable version, if it has one. */
  datatype Descriptor = Descriptor(key: int, min: int, stable: Option<int>)

  datatype NegotiatedApi = NegotiatedApi(key: int, min: int, max: int)

  datatype ApiVersions = ApiVersions(errorCode: int, apis: seq<Advertised>)

  datatype NegotiationLimits = NegotiationLimits(maxAdvertised: nat, maxNegotiated: nat)

  datatype NegotiationError =
    | BrokerRejected(code: int)
    | AdvertisementCapacity(observed: nat, limit: nat)
    | InvalidRange(key: int, min: int, max: int)
    | DuplicateApi(key: int)
    | NegotiatedCapacity(limit: nat)
    | NonAscending(previous: int, rejected: int)

  datatype NegotiationResult = Negotiated(apis: seq<NegotiatedApi>) | Declined(error: NegotiationError)

  function AdvertisedRank(a: Advertised): Rank { (a.key, 0) }

  function DescriptorRank(d: Descriptor): Rank { (d.key, 0) }

  function ApiRank(a: NegotiatedApi): Rank { (a.key, 0) }

  // ------------------------------------------------------------------ local descriptors

  /** The descriptor of a key in a table without repeated keys. */
  function FindDescriptor(table: seq<Descriptor>, key: int): (r: Option<Descriptor>)
    ensures r.Some? ==> r.value in table && r.value.key == key
    ensures r.None? ==> forall d :: d in table ==> d.key != key
  {
    if table == [] then None
    else if table[0].key == key then Some(table[0])
    else
      assert table == [table[0]] + table[1..];
      FindDescriptor(table[1..], key)
  }

  /** Binary search over the sorted table. */
  method LocalDescriptor(table: seq<Descriptor>, key: int) returns (r: Option<Descriptor>)
    requires Climbs(DescriptorRank, table)
    ensures r == FindDescriptor(table, key)
  {
    hide FindDescriptor;
    var low, high := 0, |table|;
    while low < high
      invariant 0 <= low <= high <= |table|
      invariant forall i :: 0 <= i < low ==> table[i].key < key
      invariant forall i :: high <= i < |table| ==> table[i].key > key
    {
      var mid := low + (high - low) / 2;
      if table[mid].key == key {
        OnlyDescriptor(table, key, mid);
        return Some(table[mid]);
      } else if table[mid].key < key {
        BelowMid(table, mid);
        low := mid + 1;
      } else {
        AboveMid(table, mid);
        high := mid;
      }
    }
    var found := FindDescriptor(table, key);
    assert found.None?;
    r := None;
  }

  lemma BelowMid(table: seq<Descriptor>, mid: nat)
    requires Climbs(DescriptorRank, table) && mid < |table|
    ensures forall i :: 0 <= i < mid ==> table[i].key < table[mid].key
  {
    forall i | 0 <= i < mid ensures table[i].key < table[mid].key {
      assert Below(DescriptorRank(table[i]), DescriptorRank(table[mid]));
    }
  }

  lemma AboveMid(table: seq<Descriptor>, mid: nat)
    requires Climbs(DescriptorRank, table) && mid < |table|
    ensures forall i :: mid < i < |table| ==> table[i].key > table[mid].key
  {
    forall i | mid < i < |table| ensures table[i].key > table[mid].key {
      assert Below(DescriptorRank(table[mid]), DescriptorRank(table[i]));
    }
  }

  lemma OnlyDescriptor(table: seq<Descriptor>, key: int, mid: nat)
    requires Climbs(DescriptorRank, table) && mid < |table| && table[mid].key == key
    ensures FindDescriptor(table, key) == Some(table[mid])
  {
    BelowMid(table, mid);
    AboveMid(table, mid);
    assert table[mid] in table;
    var found := FindDescriptor(table, key).value;
    var i :| 0 <= i < |table| && table[i] == found;
    assert i == mid;
  }

  // ------------------------------------------------------------------ negotiation

  function Max(a: int, b: int): int { if a < b then b else a }

  function Min(a: int, b: int): int { if a < b then a else b }

  /** A version the local side implements as stable and the broker advertises. */
  predicate Shared(d: Descriptor, min: int, max: int, v: int) {
    d.stable.Some? && d.min <= v <= d.stable.value && min <= v <= max
  }

  predicate Offers(api: NegotiatedApi, v: int) { api.min <= v <= api.max }

  /** Exactly the shared versions; none when there are none. */
  function StableOverlap(d: Descriptor, min: int, max: int): (r: Option<NegotiatedApi>)
    ensures r.Some? ==> r.value.key == d.key && r.value.min <= r.value.max
    ensures r.Some? ==> forall v :: Offers(r.value, v) <==> Shared(d, min, max, v)
    ensures r.None? ==> forall v :: !Shared(d, min, max, v)
  {
    if d.stable.None? then None
    else
      var low, high := Max(d.min, min), Min(d.stable.value, max);
      if low <= high then Some(NegotiatedApi(d.key, low, high)) else None
  }

  function OverlapOf(table: seq<Descriptor>, a: Advertised): (r: Option<NegotiatedApi>)
    ensures r.Some? ==> r.value.key == a.key
  {
    var d := FindDescriptor(table, a.key);
    if d.None? then None else StableOverlap(d.value, a.min, a.max)
  }

  /** The overlaps of a list of advertisements, in order. */
  function Selected(table: seq<Descriptor>, apis: seq<Advertised>): (r: seq<NegotiatedApi>)
    ensures |r| <= |apis|
  {
    if apis == [] then []
    else
      var front := Selected(table, apis[..|apis| - 1]);
      var last := OverlapOf(table, apis[|apis| - 1]);
      if last.Some? then front + [last.value] else front
  }

  predicate RangesValid(apis: seq<Advertised>) {
    forall i :: 0 <= i < |apis| ==> apis[i].min <= apis[i].max
  }

  /** When an advertisement is accepted: nothing here depends on the order of its entries. */
  ghost predicate Acceptable(response: ApiVersions, limits: NegotiationLimits) {
    && response.errorCode == 0
    && |response.apis| <= limits.maxAdvertised
    && RangesValid(response.apis)
    && DistinctRanks(AdvertisedRank, response.apis)
  }

  method Negotiate(response: ApiVersions, limits: NegotiationLimits, table: seq<Descriptor>) returns (r: NegotiationResult)
    requires Climbs(DescriptorRank, table)
    ensures Outcome(response, limits, table, r) && (r.Negotiated? ==> Climbs(ApiRank, r.apis))
    ensures r.Declined? && r.error.DuplicateApi? ==> !DistinctRanks(AdvertisedRank, response.apis)
    ensures r.Declined? && r.error.InvalidRange? ==> !RangesValid(response.apis)
  {
    hide Sort, Selected, OverlapOf, StableOverlap, FindDescriptor;
    if response.errorCode != 0 {
      return Declined(BrokerRejected(response.errorCode));
    }
    if |response.apis| > limits.maxAdvertised {
      return Declined(AdvertisementCapacity(|response.apis|, limits.maxAdvertised));
    }
    var apis := Sort(AdvertisedRank, response.apis);
    ClimbsWhenSorted(AdvertisedRank, response.apis);
    SameRanges(response.apis, apis);
    var selected, failure := Overlaps(apis, table);
    if failure.Some? {
      return Declined(failure.value);
    }
    SelectedClimbs(table, apis);
    r := Capabilities(selected, limits.maxNegotiated);
  }

  /** The loop over sorted advertisements: an invalid range or an equal neighbour refuses the whole answer. */
  method Overlaps(apis: seq<Advertised>, table: seq<Descriptor>)
    returns (selected: seq<NegotiatedApi>, failure: Option<NegotiationError>)
    requires Climbs(DescriptorRank, table) && Ascends(AdvertisedRank, apis)
    ensures failure.None? <==> RangesValid(apis) && Climbs(AdvertisedRank, apis)
    ensures failure.None? ==> selected == Selected(table, apis)
    ensures failure.Some? ==>
      || (failure.value.InvalidRange? && !RangesValid(apis))
      || (failure.value.DuplicateApi? && !Climbs(AdvertisedRank, apis))
  {
    hide Selected, OverlapOf, StableOverlap, FindDescriptor, Below, AtMost;
    selected := [];
    assert Selected(table, []) == [] by { SelectedNone(table); }
    var previous: Option<int> := None;
    for i := 0 to |apis|
      invariant RangesValid(apis[..i]) && Climbs(AdvertisedRank, apis[..i])
      invariant previous == if i == 0 then None else Some(apis[i - 1].key)
      invariant selected == Selected(table, apis[..i])
    {
      if apis[i].min > apis[i].max {
        return selected, Some(InvalidRange(apis[i].key, apis[i].min, apis[i].max));
      }
      if previous == Some(apis[i].key) {
        EqualNeighbours(apis, i);
        return selected, Some(DuplicateApi(apis[i].key));
      }
      previous := Some(apis[i].key);
      ClimbsOn(apis, i);
      SelectedOn(table, apis, i);
      var local := LocalDescriptor(table, apis[i].key);
      OverlapIs(table, apis[i]);
      if local.Some? {
        var versions := StableOverlap(local.value, apis[i].min, apis[i].max);
        if versions.Some? {
          selected := selected + [versions.value];
        }
      }
    }
    assert apis[..|apis|] == apis;
    failure := None;
  }

  lemma SelectedNone(table: seq<Descriptor>)
    ensures Selected(table, []) == []
  {
  }

  lemma OverlapIs(table: seq<Descriptor>, a: Advertised)
    ensures var d := FindDescriptor(table, a.key);
      OverlapOf(table, a) == if d.None? then None else StableOverlap(d.value, a.min, a.max)
  {
  }

  lemma SelectedOn(table: seq<Descriptor>, apis: seq<Advertised>, i: nat)
    requires i < |apis|
    ensures var last := OverlapOf(table, apis[i]);
      Selected(table, apis[..i + 1]) == Selected(table, apis[..i]) + if last.Some? then [last.value] else []
  {
    hide OverlapOf;
    assert apis[..i + 1][..i] == apis[..i];
  }

  lemma EqualNeighbours(apis: seq<Advertised>, i: nat)
    requires 0 < i < |apis| && apis[i - 1].key == apis[i].key
    ensures !Climbs(AdvertisedRank, apis)
  {
    assert !Below(AdvertisedRank(apis[i - 1]), AdvertisedRank(apis[i]));
  }

  lemma ClimbsOn(apis: seq<Advertised>, i: nat)
    requires Ascends(AdvertisedRank, apis) && i < |apis| && Climbs(AdvertisedRank, apis[..i])
    requires i > 0 ==> apis[i - 1].key != apis[i].key
    ensures Climbs(AdvertisedRank, apis[..i + 1])
  {
    forall j, k | 0 <= j < k < i + 1 ensures Below(AdvertisedRank(apis[j]), AdvertisedRank(apis[k])) {
      if k < i {
        assert Below(AdvertisedRank(apis[..i][j]), AdvertisedRank(apis[..i][k]));
      } else {
        assert AtMost(AdvertisedRank(apis[i - 1]), AdvertisedRank(apis[i]));
        assert AtMost(AdvertisedRank(apis[j]), AdvertisedRank(apis[i - 1])) || j == i - 1;
      }
    }
  }

  lemma SameRanges(s: seq<Advertised>, t: seq<Advertised>)
    requires multiset(s) == multiset(t)
    ensures RangesValid(s) <==> RangesValid(t)
  {
    forall i | 0 <= i < |t| ensures t[i] in s {
      assert t[i] in multiset(s);
    }
    forall i | 0 <= i < |s| ensures s[i] in t {
      assert s[i] in multiset(t);
    }
  }

  /** Selected is exactly the overlaps there are. */
  lemma {:induction false} SelectedMembers(table: seq<Descriptor>, apis: seq<Advertised>)
    ensures forall n :: n in Selected(table, apis) ==> exists i :: 0 <= i < |apis| && OverlapOf(table, apis[i]) == Some(n)
    ensures forall i :: 0 <= i < |apis| && OverlapOf(table, apis[i]).Some? ==> OverlapOf(table, apis[i]).value in Selected(table, apis)
    decreases |apis|
  {
    hide OverlapOf;
    if apis != [] {
      var front := apis[..|apis| - 1];
      SelectedMembers(table, front);
      forall n | n in Selected(table, apis)
        ensures exists i :: 0 <= i < |apis| && OverlapOf(table, apis[i]) == Some(n)
      {
        if n in Selected(table, front) {
          var i :| 0 <= i < |front| && OverlapOf(table, front[i]) == Some(n);
          assert OverlapOf(table, apis[i]) == Some(n);
        } else {
          assert OverlapOf(table, apis[|apis| - 1]) == Some(n);
        }
      }
      forall i | 0 <= i < |apis| && OverlapOf(table, apis[i]).Some?
        ensures OverlapOf(table, apis[i]).value in Selected(table, apis)
      {
        assert i < |front| ==> front[i] == apis[i];
      }
    }
  }

  lemma {:induction false} SelectedClimbs(table: seq<Descriptor>, apis: seq<Advertised>)
    requires Climbs(AdvertisedRank, apis)
    ensures Climbs(ApiRank, Selected(table, apis))
    decreases |apis|
  {
    hide OverlapOf;
    if apis != [] {
      var front := apis[..|apis| - 1];
      SelectedClimbs(table, front);
      var last := OverlapOf(table, apis[|apis| - 1]);
      if last.Some? {
        AllBelow(table, apis);
        SnocClimbs(Selected(table, front), last.value);
      }
    }
  }

  lemma AllBelow(table: seq<Descriptor>, apis: seq<Advertised>)
    requires apis != [] && Climbs(AdvertisedRank, apis)
    ensures forall n :: n in Selected(table, apis[..|apis| - 1]) ==> n.key < apis[|apis| - 1].key
  {
    hide Selected, OverlapOf;
    var front := apis[..|apis| - 1];
    SelectedMembers(table, front);
    forall n | n in Selected(table, front) ensures n.key < apis[|apis| - 1].key {
      var i :| 0 <= i < |front| && OverlapOf(table, front[i]) == Some(n);
      assert Below(AdvertisedRank(apis[i]), AdvertisedRank(apis[|apis| - 1]));
    }
  }

  lemma SnocClimbs(kept: seq<NegotiatedApi>, n: NegotiatedApi)
    requires Climbs(ApiRank, kept) && forall k :: k in kept ==> k.key < n.key
    ensures Climbs(ApiRank, kept + [n])
  {
    forall i | 0 <= i < |kept| ensures Below(ApiRank(kept[i]), ApiRank(n)) {
      assert kept[i] in kept;
    }
  }

  /** `NegotiatedCapabilities::try_from_iter`: accepted exactly when the list climbs and fits. */
  method Capabilities(selected: seq<NegotiatedApi>, limit: nat) returns (r: NegotiationResult)
    ensures r.Negotiated? <==> Climbs(ApiRank, selected) && |selected| <= limit
    ensures r.Negotiated? ==> r.apis == selected
    ensures r.Declined? && r.error.NonAscending? ==> !Climbs(ApiRank, selected)
    ensures r.Declined? ==> r.error.NonAscending? || r.error == NegotiatedCapacity(limit)
  {
    hide Below;
    var retained: seq<NegotiatedApi> := [];
    for i := 0 to |selected|
      invariant retained == selected[..i] && i <= limit && Climbs(ApiRank, retained)
    {
      if retained != [] && retained[|retained| - 1].key >= selected[i].key {
        NotClimbing(selected, i);
        return Declined(NonAscending(retained[|retained| - 1].key, selected[i].key));
      }
      if |retained| == limit {
        return Declined(NegotiatedCapacity(limit));
      }
      ClimbsUpTo(selected, i);
      retained := retained + [selected[i]];
    }
    assert selected[..|selected|] == selected;
    r := Negotiated(retained);
  }

  lemma NotClimbing(selected: seq<NegotiatedApi>, i: nat)
    requires 0 < i < |selected| && selected[i - 1].key >= selected[i].key
    ensures !Climbs(ApiRank, selected)
  {
    assert !Below(ApiRank(selected[i - 1]), ApiRank(selected[i]));
  }

  lemma ClimbsUpTo(selected: seq<NegotiatedApi>, i: nat)
    requires i < |selected| && Climbs(ApiRank, selected[..i])
    requires i > 0 ==> selected[i - 1].key < selected[i].key
    ensures Climbs(ApiRank, selected[..i + 1])
  {
    var before := selected[..i];
    forall n | n in before ensures n.key < selected[i].key {
      var j :| 0 <= j < i && before[j] == n;
      if j < i - 1 {
        assert Below(ApiRank(before[j]), ApiRank(before[i - 1]));
      }
    }
    SnocClimbs(before, selected[i]);
    assert selected[..i + 1] == before + [selected[i]];
  }

  /** The outcome of a negotiation as a function of what was advertised. */
  ghost predicate Outcome(response: ApiVersions, limits: NegotiationLimits, table: seq<Descriptor>, r: NegotiationResult) {
    var apis := Selected(table, Sort(AdvertisedRank, response.apis));
    && (r.Negotiated? <==> Acceptable(response, limits) && |apis| <= limits.maxNegotiated)
    && (r.Negotiated? ==> r.apis == apis)
  }

  /** Whether negotiation succeeds, and with what, does not depend on the order of the advertisement. */
  lemma OrderIndependence(a: ApiVersions, b: ApiVersions, limits: NegotiationLimits, table: seq<Descriptor>,
                          ra: NegotiationResult, rb: NegotiationResult)
    requires a.errorCode == b.errorCode && multiset(a.apis) == multiset(b.apis)
    requires Outcome(a, limits, table, ra) && Outcome(b, limits, table, rb)
    ensures ra.Negotiated? <==> rb.Negotiated?
    ensures ra.Negotiated? ==> ra == rb
  {
    hide Selected, Sort, RangesValid;
    assert |a.apis| == |multiset(a.apis)| && |b.apis| == |multiset(b.apis)|;
    SameRanges(a.apis, b.apis);
    if DistinctRanks(AdvertisedRank, a.apis) {
      Rearranged(AdvertisedRank, a.apis, b.apis);
      ClimbsWhenSorted(AdvertisedRank, a.apis);
      SortedIsUnique(AdvertisedRank, Sort(AdvertisedRank, a.apis), Sort(AdvertisedRank, b.apis));
    }
    if DistinctRanks(AdvertisedRank, b.apis) {
      Rearranged(AdvertisedRank, b.apis, a.apis);
    }
  }

  // ------------------------------------------------------------------ selection

  datatype VersionSelection = Highest | AtLeast(minimum: int) | AtMostVersion(maximum: int) | Within(minimum: int, maximum: int)

  function FromBounds(minimum: Option<int>, maximum: Option<int>): VersionSelection {
    match (minimum, maximum)
    case (None, None) => Highest
    case (Some(low), None) => AtLeast(low)
    case (None, Some(high)) => AtMostVersion(high)
    case (Some(low), Some(high)) => Within(low, high)
  }

  datatype Selection = Version(version: int) | Unavailable(error: RequestError)

  function HighestAtMost(api: NegotiatedApi, maximum: int): Option<int> {
    if maximum < api.min then None else if maximum < api.max then Some(maximum) else Some(api.max)
  }

  function SelectMaximum(api: NegotiatedApi, maximum: int): Selection {
    var highest := HighestAtMost(api, maximum);
    if highest.Some? then Version(highest.value) else Unavailable(VersionLimitUnavailable)
  }

  function Select(selection: VersionSelection, api: NegotiatedApi): Selection {
    match selection
    case Highest => Version(api.max)
    case AtLeast(minimum) => if api.max < minimum then Unavailable(VersionFloorUnavailable) else Version(api.max)
    case AtMostVersion(maximum) => SelectMaximum(api, maximum)
    case Within(minimum, maximum) =>
      if minimum > maximum then Unavailable(VersionBoundsInvalid)
      else
        var selected := SelectMaximum(api, maximum);
        if selected.Version? && selected.version < minimum then Unavailable(VersionFloorUnavailable) else selected
  }

  predicate Allows(minimum: Option<int>, maximum: Option<int>, v: int) {
    (minimum.Some? ==> minimum.value <= v) && (maximum.Some? ==> v <= maximum.value)
  }

  /** Negotiated and allowed by the caller. */
  predicate Eligible(api: NegotiatedApi, minimum: Option<int>, maximum: Option<int>, v: int) {
    Offers(api, v) && Allows(minimum, maximum, v)
  }

  /** Selection finds the largest eligible version, and fails exactly when none is eligible. */
  lemma SelectsMaximum(api: NegotiatedApi, minimum: Option<int>, maximum: Option<int>)
    requires api.min <= api.max
    ensures var r := Select(FromBounds(minimum, maximum), api);
      && (r.Version? ==> Eligible(api, minimum, maximum, r.version)
                         && forall v :: Eligible(api, minimum, maximum, v) ==> v <= r.version)
      && (r.Unavailable? ==> forall v :: !Eligible(api, minimum, maximum, v))
      && (r == Unavailable(VersionBoundsInvalid) <==> minimum.Some? && maximum.Some? && minimum.value > maximum.value)
      && (r.Unavailable? ==> DeliveryOf(r.error) == NotSent)
  {
    var r := Select(FromBounds(minimum, maximum), api);
    if r.Unavailable? {
      forall v ensures !Eligible(api, minimum, maximum, v) {
      }
    }
  }

  /** Negotiated for `key` after an accepted advertisement. */
  ghost predicate NegotiatedFor(apis: seq<NegotiatedApi>, key: int, api: NegotiatedApi) { api in apis && api.key == key }

  /** What was negotiated for an advertised API is its overlap with the local descriptor, if there is one. */
  lemma NegotiatedIsOverlap(response: ApiVersions, limits: NegotiationLimits, table: seq<Descriptor>, r: NegotiationResult,
                            a: Advertised, api: NegotiatedApi)
    requires Outcome(response, limits, table, r) && r.Negotiated? && a in response.apis
    ensures NegotiatedFor(r.apis, a.key, api) <==> OverlapOf(table, a) == Some(api)
  {
    hide Selected, Sort, RangesValid, OverlapOf;
    var sorted := Sort(AdvertisedRank, response.apis);
    ClimbsWhenSorted(AdvertisedRank, response.apis);
    SelectedMembers(table, sorted);
    assert a in multiset(sorted);
    var at := PositionOf(sorted, a);
    if NegotiatedFor(r.apis, a.key, api) {
      var i :| 0 <= i < |sorted| && OverlapOf(table, sorted[i]) == Some(api);
      assert !Below(AdvertisedRank(sorted[i]), AdvertisedRank(sorted[at]));
      assert !Below(AdvertisedRank(sorted[at]), AdvertisedRank(sorted[i]));
    }
  }

  /** An API is usable exactly when some version of it is locally stable and advertised. */
  lemma NegotiatedWhenShared(response: ApiVersions, limits: NegotiationLimits, table: seq<Descriptor>, r: NegotiationResult,
                             a: Advertised)
    requires Outcome(response, limits, table, r) && r.Negotiated? && a in response.apis
    ensures var d := FindDescriptor(table, a.key);
      (exists api :: NegotiatedFor(r.apis, a.key, api)) <==> d.Some? && exists v :: Shared(d.value, a.min, a.max, v)
  {
    hide Outcome, FindDescriptor, NegotiatedFor;
    var overlap := OverlapOf(table, a);
    if overlap.Some? {
      NegotiatedIsOverlap(response, limits, table, r, a, overlap.value);
      assert Offers(overlap.value, overlap.value.min);
    } else {
      forall api ensures !NegotiatedFor(r.apis, a.key, api) {
        NegotiatedIsOverlap(response, limits, table, r, a, api);
      }
    }
  }

  /**
   * End to end: the version a request is sent with is the largest one that is locally stable, advertised by
   * the broker and within the caller's bounds, and selection fails exactly when there is none.
   */
  lemma NegotiatedSelection(response: ApiVersions, limits: NegotiationLimits, table: seq<Descriptor>, r: NegotiationResult,
                            a: Advertised, api: NegotiatedApi, minimum: Option<int>, maximum: Option<int>)
    requires Outcome(response, limits, table, r) && r.Negotiated? && a in response.apis
    requires NegotiatedFor(r.apis, a.key, api)
    ensures FindDescriptor(table, a.key).Some?
    ensures var d, chosen := FindDescriptor(table, a.key).value, Select(FromBounds(minimum, maximum), api);
      && (chosen.Version? ==> Shared(d, a.min, a.max, chosen.version) && Allows(minimum, maximum, chosen.version))
      && (forall v :: Shared(d, a.min, a.max, v) && Allows(minimum, maximum, v) ==> chosen.Version? && v <= chosen.version)
  {
    hide Outcome, FindDescriptor, NegotiatedFor, Select;
    NegotiatedIsOverlap(response, limits, table, r, a, api);
    SelectsMaximum(api, minimum, maximum);
    var d, chosen := FindDescriptor(table, a.key).value, Select(FromBounds(minimum, maximum), api);
    forall v | Shared(d, a.min, a.max, v) && Allows(minimum, maximum, v) ensures chosen.Version? && v <= chosen.version {
      assert Offers(api, v);
      assert Eligible(api, minimum, maximum, v);
    }
  }
}
