/**
 * List-valued request parameters: the endpoints send a list as one
 * comma-joined string, or `None` when the list is `None` or empty.
 */
module ListParams {
  import opened Wrappers
  import opened Text
  import opened Decimal
  import opened PyValue

  /** `",".join(xs) if xs else None`. */
  function JoinedOrNone(xs: Option<seq<string>>): (v: Value)
    ensures v.VStr? <==> xs.Some? && |xs.value| > 0
    ensures !v.VStr? ==> v == VNone
  {
    if xs.Some? && |xs.value| > 0 then VStr(Join(xs.value, ",")) else VNone
  }

  /** `str(n)` of each number. */
  function Decimals(xs: seq<int>): seq<string>
  {
    seq(|xs|, i requires 0 <= i < |xs| => IntToString(xs[i]))
  }

  /** `",".join(map(str, xs)) if xs else None` for a list of integers. */
  function JoinedIntsOrNone(xs: Option<seq<int>>): (v: Value)
    ensures v.VStr? <==> xs.Some? && |xs.value| > 0
    ensures !v.VStr? ==> v == VNone
  {
    if xs.Some? && |xs.value| > 0 then VStr(Join(Decimals(xs.value), ",")) else VNone
  }

  /** A non-empty list of comma-free strings is sent so that splitting at `,` recovers it. */
  lemma JoinedRoundTrip(xs: seq<string>)
    requires |xs| > 0
    requires forall k :: 0 <= k < |xs| ==> ',' !in xs[k]
    ensures JoinedOrNone(Some(xs)).VStr?
    ensures SplitOn(JoinedOrNone(Some(xs)).s, ',') == xs
  {
    SplitJoin(xs, ',');
  }

  /** A non-empty list of numbers is sent so that splitting at `,` and reading
      each piece with `int` recovers every number, in order. */
  lemma JoinedIntsRoundTrip(xs: seq<int>)
    requires |xs| > 0
    ensures JoinedIntsOrNone(Some(xs)).VStr?
    ensures var pieces := SplitOn(JoinedIntsOrNone(Some(xs)).s, ',');
            |pieces| == |xs| && forall k :: 0 <= k < |xs| ==> ParseInt(pieces[k]) == Some(xs[k])
  {
    var ds := Decimals(xs);
    forall k | 0 <= k < |ds| ensures ',' !in ds[k] {
      IntToStringPlain(xs[k]);
    }
    SplitJoin(ds, ',');
    forall k | 0 <= k < |xs| ensures ParseInt(ds[k]) == Some(xs[k]) {
      IntRoundTrip(xs[k]);
    }
  }
}
