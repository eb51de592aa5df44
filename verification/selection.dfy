/** The strict running minimum both grid searches use: a candidate replaces
    the best so far only when its error compares strictly smaller, so the
    earliest of several equal minima is kept and a NaN or infinite error is
    never chosen. */
module Selection {
  import opened Wrappers

  /** The result of a floating-point computation: a real, or an infinity or NaN. */
  datatype Float = Finite(v: real) | NonFinite

  /** `a < b`, with a non-finite `b` read as `+inf`. A non-finite `a` (NaN or
      infinity) never compares smaller. */
  predicate Less(a: Float, b: Float) {
    a.Finite? && (b.NonFinite? || a.v < b.v)
  }

  /** The best grid index seen so far (none yet) and its error. */
  datatype Best = Best(index: Option<nat>, error: Float)

  /** One step of the search: `if err < best_error: best = (k, err)`. */
  function Update(b: Best, k: nat, err: Float): (r: Best)
    ensures Less(err, b.error) ==> r == Best(Some(k), err)
    ensures !Less(err, b.error) ==> r == b
  {
    if Less(err, b.error) then Best(Some(k), err) else b
  }

  /** The search state after the errors `errs`, starting from `init` with no index. */
  function Scan(errs: seq<Float>, init: Float): Best {
    if |errs| == 0 then Best(None, init)
    else Update(Scan(errs[..|errs| - 1], init), |errs| - 1, errs[|errs| - 1])
  }

  /** One more candidate is one more step of the search. */
  lemma ScanAppend(errs: seq<Float>, err: Float, init: Float)
    ensures Scan(errs + [err], init) == Update(Scan(errs, init), |errs|, err)
  {
    assert (errs + [err])[..|errs|] == errs;
  }

  /** Index `i` holds the earliest smallest error and is below `init`. */
  predicate EarliestMinimum(errs: seq<Float>, init: Float, i: nat) {
    && i < |errs|
    && Less(errs[i], init)
    && (forall k :: 0 <= k < |errs| ==> !Less(errs[k], errs[i]))
    && (forall k :: 0 <= k < i ==> !(Less(errs[k], init) && !Less(errs[i], errs[k])))
  }

  /** What the running minimum selects: nothing when no error is below
      `init`, and otherwise the earliest smallest error. */
  lemma {:induction false} ScanSelects(errs: seq<Float>, init: Float)
    ensures var b := Scan(errs, init);
      && (b.index.None? <==> forall k :: 0 <= k < |errs| ==> !Less(errs[k], init))
      && (b.index.None? ==> b.error == init)
      && (b.index.Some? ==> EarliestMinimum(errs, init, b.index.value) && b.error == errs[b.index.value])
    decreases |errs|
  {
    if |errs| > 0 {
      var init' := errs[..|errs| - 1];
      var n := |errs| - 1;
      ScanSelects(init', init);
      var b := Scan(init', init);
      assert forall k :: 0 <= k < n ==> errs[k] == init'[k];
      if b.index.Some? && !Less(errs[n], b.error) {
        var i := b.index.value;
        assert forall k :: 0 <= k < i ==> !(Less(errs[k], init) && !Less(errs[i], errs[k]));
      }
    }
  }

  /** The best error never gets worse: after more candidates it compares no
      larger than before. */
  lemma {:induction false} ScanNonIncreasing(errs: seq<Float>, init: Float, j: nat)
    requires j <= |errs|
    ensures !Less(Scan(errs[..j], init).error, Scan(errs, init).error)
    decreases |errs| - j
  {
    if j < |errs| {
      ScanNonIncreasing(errs, init, j + 1);
      assert errs[..j + 1][..j] == errs[..j];
    } else {
      assert errs[..j] == errs;
    }
  }
}
