/**
 * The toast (notification) system of the design library: the provider's
 * ordered list of toasts, the per-toast visible/leaving/gone lifecycle
 * driven by timer events, and the module-level facade that forwards to a
 * bound provider.
 *
 * Timers are explicit events (`AutoDismissTimerFires`, `LeaveTimerFires`);
 * the id generator (wall clock plus a random base-36 suffix) is an oracle
 * passed in as an `IdSeed`.
 */
module Toasts {
  import opened Wrappers

  datatype Variant = Info | Success | Warning | Error

  datatype Position = TopLeft | TopRight | BottomLeft | BottomRight | TopCenter | BottomCenter

  /** What a caller passes to `addToast`: every toast prop except `id`. */
  datatype ToastInput = ToastInput(
    title: Option<string>,
    message: string,
    variant: Option<Variant>,
    duration: Option<int>,
    dismissible: Option<bool>,
    hasAction: bool,
    position: Option<Position>)

  /** An entry of the provider's list: the generated id followed by the caller's props. */
  datatype ToastRecord = ToastRecord(id: string, input: ToastInput)

  /** The options a severity helper accepts: the props minus id, message and variant. */
  datatype ToastOptions = ToastOptions(
    title: Option<string>,
    duration: Option<int>,
    dismissible: Option<bool>,
    hasAction: bool,
    position: Option<Position>)

  /** The props one mounted `Toast` sees, after its defaults are applied. */
  datatype ToastConfig = ToastConfig(
    id: string,
    title: Option<string>,
    message: string,
    variant: Variant,
    duration: int,
    dismissible: bool,
    hasAction: bool,
    position: Position)

  const DefaultDuration := 5000
  /** Milliseconds between `handleDismiss` and the toast disappearing (the exit animation). */
  const LeaveDelay := 300
  const DefaultPosition := BottomRight

  // ---------------------------------------------------------------------------
  // Toast ids: "toast-" + decimal timestamp + "-" + random suffix
  // ---------------------------------------------------------------------------

  /** What the id generator reads: `Date.now()` and the base-36 random suffix. */
  datatype IdSeed = IdSeed(now: nat, suffix: string)

  const IdPrefix := "toast-"

  predicate IsDigit(c: char) {
    '0' <= c <= '9'
  }

  predicate AllDigits(s: string) {
    forall i :: 0 <= i < |s| ==> IsDigit(s[i])
  }

  function DigitChar(d: nat): (c: char)
    requires d < 10
    ensures IsDigit(c) && c as int - '0' as int == d
  {
    ('0' as int + d) as char
  }

  /** The decimal rendering of a timestamp, as template-string interpolation produces it. */
  function Decimal(n: nat): (s: string)
    ensures |s| > 0 && AllDigits(s)
  {
    if n < 10 then [DigitChar(n)] else Decimal(n / 10) + [DigitChar(n % 10)]
  }

  /** The number a string of decimal digits denotes (the inverse of `Decimal`). */
  function DecimalValue(s: string): nat
    requires AllDigits(s)
  {
    if s == [] then 0 else 10 * DecimalValue(s[..|s| - 1]) + (s[|s| - 1] as int - '0' as int)
  }

  lemma {:induction false} DecimalRoundTrip(n: nat)
    ensures DecimalValue(Decimal(n)) == n
  {
    if n >= 10 {
      var s := Decimal(n);
      assert s[..|s| - 1] == Decimal(n / 10);
      DecimalRoundTrip(n / 10);
    }
  }

  /** The id `addToast` stores on a new toast and returns. */
  function ToastId(seed: IdSeed): (id: string)
    ensures |id| > |IdPrefix| && id[..|IdPrefix|] == IdPrefix
  {
    IdPrefix + Decimal(seed.now) + "-" + seed.suffix
  }

  /** The number of leading decimal digits of `s`. */
  function LeadingDigits(s: string): (k: nat)
    ensures k <= |s| && AllDigits(s[..k])
    ensures k < |s| ==> !IsDigit(s[k])
  {
    if s != [] && IsDigit(s[0]) then
      var k := 1 + LeadingDigits(s[1..]);
      assert s[..k] == [s[0]] + s[1..][..k - 1];
      k
    else 0
  }

  /** Reads the timestamp and suffix back out of a generated id. */
  function ParseToastId(id: string): (r: Option<IdSeed>)
    ensures r.Some? ==> |id| > |IdPrefix| + 1 + |r.value.suffix| && id[..|IdPrefix|] == IdPrefix
    ensures r.Some? ==> id[|id| - |r.value.suffix|..] == r.value.suffix && id[|id| - |r.value.suffix| - 1] == '-'
    ensures |id| < |IdPrefix| || id[..|IdPrefix|] != IdPrefix ==> r.None?
  {
    if |id| < |IdPrefix| || id[..|IdPrefix|] != IdPrefix then None
    else
      var body := id[|IdPrefix|..];
      var k := LeadingDigits(body);
      if 0 < k < |body| && body[k] == '-' then Some(IdSeed(DecimalValue(body[..k]), body[k + 1..]))
      else None
  }

  lemma {:induction false} LeadingDigitsBeforeDash(x: string, rest: string)
    requires AllDigits(x)
    ensures LeadingDigits(x + "-" + rest) == |x|
  {
    if x != [] {
      assert (x + "-" + rest)[1..] == x[1..] + "-" + rest;
      LeadingDigitsBeforeDash(x[1..], rest);
    }
  }

  /** Generated ids can be parsed back into the timestamp and suffix they came from. */
  lemma ToastIdRoundTrip(seed: IdSeed)
    ensures ParseToastId(ToastId(seed)) == Some(seed)
  {
    var x := Decimal(seed.now);
    var id := ToastId(seed);
    var body := id[|IdPrefix|..];
    assert body == x + "-" + seed.suffix;
    LeadingDigitsBeforeDash(x, seed.suffix);
    assert body[..|x|] == x;
    assert body[|x| + 1..] == seed.suffix;
    DecimalRoundTrip(seed.now);
  }

  /**
   * Ids are unique exactly as far as the (timestamp, suffix) pairs are:
   * two toasts get the same id only when both were created in the same
   * millisecond with the same random suffix.
   */
  lemma ToastIdInjective(a: IdSeed, b: IdSeed)
    ensures ToastId(a) == ToastId(b) <==> a == b
  {
    ToastIdRoundTrip(a);
    ToastIdRoundTrip(b);
  }

  // ---------------------------------------------------------------------------
  // The provider's list operations
  // ---------------------------------------------------------------------------

  predicate HasId(ts: seq<ToastRecord>, id: string) {
    exists i :: 0 <= i < |ts| && ts[i].id == id
  }

  predicate DistinctIds(ts: seq<ToastRecord>) {
    forall i, j :: 0 <= i < j < |ts| ==> ts[i].id != ts[j].id
  }

  /** `toasts.filter(toast => toast.id !== id)`. */
  function Without(ts: seq<ToastRecord>, id: string): (r: seq<ToastRecord>)
    ensures |r| <= |ts|
    ensures forall t :: t in r <==> t in ts && t.id != id
  {
    if ts == [] then []
    else (if ts[0].id == id then [] else [ts[0]]) + Without(ts[1..], id)
  }

  /** Filtering distributes over concatenation, so the survivors keep their relative order. */
  lemma {:induction false} WithoutConcat(xs: seq<ToastRecord>, ys: seq<ToastRecord>, id: string)
    ensures Without(xs + ys, id) == Without(xs, id) + Without(ys, id)
  {
    if xs != [] {
      assert (xs + ys)[0] == xs[0];
      assert (xs + ys)[1..] == xs[1..] + ys;
      WithoutConcat(xs[1..], ys, id);
    } else {
      assert xs + ys == ys;
    }
  }

  /** Removing an id that is not in the list leaves the list unchanged. */
  lemma {:induction false} WithoutAbsent(ts: seq<ToastRecord>, id: string)
    requires !HasId(ts, id)
    ensures Without(ts, id) == ts
  {
    if ts != [] {
      assert ts[0].id != id;
      assert !HasId(ts[1..], id) by {
        forall i | 0 <= i < |ts[1..]| ensures ts[1..][i].id != id {
          assert ts[1..][i] == ts[i + 1];
        }
      }
      WithoutAbsent(ts[1..], id);
    }
  }

  /** After removal no toast carries the id. */
  lemma WithoutRemovesId(ts: seq<ToastRecord>, id: string)
    ensures !HasId(Without(ts, id), id)
  {
    var r := Without(ts, id);
    forall i | 0 <= i < |r| ensures r[i].id != id {
      assert r[i] in r;
    }
  }

  /** `removeToast` is idempotent, so a second `onDismiss(id)` has no further effect. */
  lemma {:induction false} WithoutIdempotent(ts: seq<ToastRecord>, id: string)
    ensures Without(Without(ts, id), id) == Without(ts, id)
  {
    WithoutRemovesId(ts, id);
    WithoutAbsent(Without(ts, id), id);
  }

  /** Two dismissals give the same list whichever completes first. */
  lemma {:induction false} WithoutCommutes(ts: seq<ToastRecord>, a: string, b: string)
    ensures Without(Without(ts, a), b) == Without(Without(ts, b), a)
  {
    if ts != [] {
      var rest := ts[1..];
      WithoutConcat(if ts[0].id == a then [] else [ts[0]], Without(rest, a), b);
      WithoutConcat(if ts[0].id == b then [] else [ts[0]], Without(rest, b), a);
      WithoutCommutes(rest, a, b);
    }
  }

  /** Adding a toast with a fresh id and then removing that id restores the list. */
  lemma RemoveUndoesAdd(ts: seq<ToastRecord>, t: ToastRecord)
    requires !HasId(ts, t.id)
    ensures Without(ts + [t], t.id) == ts
  {
    WithoutConcat(ts, [t], t.id);
    WithoutAbsent(ts, t.id);
    assert Without([t], t.id) == [];
  }

  /** Removal keeps the ids of the remaining toasts distinct. */
  lemma {:induction false} WithoutKeepsDistinct(ts: seq<ToastRecord>, id: string)
    requires DistinctIds(ts)
    ensures DistinctIds(Without(ts, id))
  {
    if ts != [] {
      var rest := ts[1..];
      assert DistinctIds(rest) by {
        forall i, j | 0 <= i < j < |rest| ensures rest[i].id != rest[j].id {
          assert rest[i] == ts[i + 1] && rest[j] == ts[j + 1];
        }
      }
      WithoutKeepsDistinct(rest, id);
      var tail := Without(rest, id);
      if ts[0].id != id {
        forall j | 0 <= j < |tail| ensures tail[j].id != ts[0].id {
          assert tail[j] in rest;
          var k :| 0 <= k < |rest| && rest[k] == tail[j];
          assert rest[k] == ts[k + 1];
        }
        assert Without(ts, id) == [ts[0]] + tail;
      }
    }
  }

  /** Appending a toast whose id is fresh keeps the ids distinct. */
  lemma AppendKeepsDistinct(ts: seq<ToastRecord>, t: ToastRecord)
    requires DistinctIds(ts) && !HasId(ts, t.id)
    ensures DistinctIds(ts + [t])
  {
    var r := ts + [t];
    forall i, j | 0 <= i < j < |r| ensures r[i].id != r[j].id {
      if j == |ts| {
        assert r[i] == ts[i];
      } else {
        assert r[i] == ts[i] && r[j] == ts[j];
      }
    }
  }

  /** The props a `Toast` mounted by the provider receives, defaults applied. */
  function Configure(rec: ToastRecord, surface: Position): (c: ToastConfig)
    ensures c.id == rec.id && c.position == surface
    ensures c.title == rec.input.title && c.message == rec.input.message && c.hasAction == rec.input.hasAction
    ensures rec.input.variant.None? ==> c.variant == Info
    ensures rec.input.variant.Some? ==> c.variant == rec.input.variant.value
    ensures rec.input.duration.None? ==> c.duration == DefaultDuration
    ensures rec.input.duration.Some? ==> c.duration == rec.input.duration.value
    ensures rec.input.dismissible.None? ==> c.dismissible
    ensures rec.input.dismissible.Some? ==> c.dismissible == rec.input.dismissible.value
  {
    ToastConfig(
      rec.id, rec.input.title, rec.input.message, rec.input.variant.GetOr(Info),
      rec.input.duration.GetOr(DefaultDuration), rec.input.dismissible.GetOr(true),
      rec.input.hasAction, surface)
  }

  /** The props of a severity helper's `addToast` call: message and variant, then the options. */
  function WithVariant(message: string, variant: Variant, options: ToastOptions): (input: ToastInput)
    ensures input.message == message && input.variant == Some(variant)
    ensures input.title == options.title && input.duration == options.duration
    ensures input.dismissible == options.dismissible && input.hasAction == options.hasAction
    ensures input.position == options.position
  {
    ToastInput(options.title, message, Some(variant), options.duration, options.dismissible,
               options.hasAction, options.position)
  }

  // ---------------------------------------------------------------------------
  // The provider
  // ---------------------------------------------------------------------------

  class ToastProvider {
    var toasts: seq<ToastRecord>
    const position: Position

    constructor (position: Option<Position>)
      ensures toasts == [] && this.position == position.GetOr(DefaultPosition)
    {
      toasts := [];
      this.position := position.GetOr(DefaultPosition);
    }

    /** Appends a toast with a freshly generated id and returns that id. */
    method AddToast(input: ToastInput, seed: IdSeed) returns (id: string)
      modifies this
      ensures id == ToastId(seed) && id != ""
      ensures toasts == old(toasts) + [ToastRecord(id, input)]
    {
      id := ToastId(seed);
      toasts := toasts + [ToastRecord(id, input)];
    }

    method RemoveToast(id: string)
      modifies this
      ensures toasts == Without(old(toasts), id)
    {
      toasts := Without(toasts, id);
    }

    method RemoveAllToasts()
      modifies this
      ensures toasts == []
    {
      toasts := [];
    }

    /**
     * The toasts the provider renders, in list order. Each one is handed the
     * provider's position, whatever position its caller asked for.
     */
    function Mounted(): (cs: seq<ToastConfig>)
      reads this
      ensures |cs| == |toasts|
      ensures forall i :: 0 <= i < |cs| ==> cs[i].id == toasts[i].id && cs[i].position == position
      ensures forall i :: 0 <= i < |cs| ==> cs[i] == Configure(toasts[i], position)
      ensures forall i :: 0 <= i < |cs| && toasts[i].input.variant.None? ==> cs[i].variant == Info
      ensures forall i :: 0 <= i < |cs| && toasts[i].input.duration.None? ==> cs[i].duration == DefaultDuration
      ensures forall i :: 0 <= i < |cs| && toasts[i].input.dismissible.None? ==> cs[i].dismissible
    {
      seq(|toasts|, i requires 0 <= i < |toasts| reads this => Configure(toasts[i], position))
    }

    /**
     * Mounts the `Toast` for the `i`-th entry. An entry added without a
     * duration gets the 5000 ms default and so an auto-dismiss timer.
     */
    method MountAt(i: nat) returns (t: Toast)
      requires i < |toasts|
      ensures fresh(t) && t.Valid() && t.mounted && t.Phase() == Visible
      ensures t.config == Mounted()[i]
      ensures toasts[i].input.duration.None? ==> t.autoTimerPending
      ensures t.autoTimerPending <==> t.config.duration != 0
    {
      t := new Toast(Configure(toasts[i], position));
    }

    /**
     * A toast's leave timer elapses: the toast hides itself and calls its
     * `onDismiss`, which the provider wired to `removeToast`.
     */
    method OnLeaveTimer(t: Toast) returns (dismissed: Option<string>)
      requires t.Valid()
      modifies this, t
      ensures t.Valid()
      ensures dismissed == (if old(t.leaveTimersPending) > 0 then Some(t.config.id) else None)
      ensures old(t.leaveTimersPending) > 0 ==> !t.isVisible && t.leaveTimersPending == old(t.leaveTimersPending) - 1
      ensures old(t.leaveTimersPending) == 0 ==> t.isVisible == old(t.isVisible) && t.leaveTimersPending == 0
      ensures t.isLeaving == old(t.isLeaving) && t.autoTimerPending == old(t.autoTimerPending)
      ensures t.mounted == old(t.mounted)
      ensures toasts == if dismissed.Some? then Without(old(toasts), dismissed.value) else old(toasts)
    {
      dismissed := t.LeaveTimerFires();
      if dismissed.Some? {
        RemoveToast(dismissed.value);
      }
    }
  }

  const OutsideProviderError := "useToast must be used within a ToastProvider"

  /** `useToast`: the nearest provider, or the error it throws when there is none. */
  function UseToast(nearest: ToastProvider?): (r: Result<ToastProvider, string>)
    ensures r.Ok? <==> nearest != null
    ensures r.Ok? ==> r.value == nearest
    ensures r.Err? ==> r.error == OutsideProviderError
  {
    if nearest == null then Err(OutsideProviderError) else Ok(nearest)
  }

  // ---------------------------------------------------------------------------
  // One toast's lifecycle
  // ---------------------------------------------------------------------------

  datatype Phase = Visible | Leaving | Gone

  function PhaseRank(p: Phase): nat {
    match p
    case Visible => 0
    case Leaving => 1
    case Gone => 2
  }

  /** What a rendered toast shows; a hidden toast renders nothing. */
  datatype ToastView = ToastView(
    variant: Variant,
    /** Present only when the title is a non-empty string (`{title && …}`). */
    title: Option<string>,
    message: string,
    actionShown: bool,
    fadingOut: bool,
    closeButton: bool,
    assertive: bool)

  class Toast {
    const config: ToastConfig
    var isVisible: bool
    var isLeaving: bool
    /** The auto-dismiss timer is scheduled and not yet fired or cleared. */
    var autoTimerPending: bool
    /** Leave timers scheduled by `handleDismiss` that have not yet elapsed; nothing clears them. */
    var leaveTimersPending: nat
    var mounted: bool

    ghost predicate Valid()
      reads this
    {
      && (!isVisible ==> isLeaving)
      && (leaveTimersPending > 0 ==> isLeaving)
      && (autoTimerPending ==> mounted && config.duration != 0)
    }

    function Phase(): Phase
      reads this
    {
      if !isVisible then Gone else if isLeaving then Leaving else Visible
    }

    /** Mounting: visible, not leaving, and one auto-dismiss timer unless the duration is 0. */
    constructor (config: ToastConfig)
      ensures this.config == config && Valid() && mounted
      ensures Phase() == Visible
      ensures autoTimerPending <==> config.duration != 0
      ensures leaveTimersPending == 0
    {
      this.config := config;
      isVisible := true;
      isLeaving := false;
      autoTimerPending := config.duration != 0;
      leaveTimersPending := 0;
      mounted := true;
    }

    /** Starts the exit animation and schedules one more leave timer; it is not guarded. */
    method HandleDismiss()
      requires Valid()
      modifies this
      ensures Valid()
      ensures isLeaving && isVisible == old(isVisible)
      ensures leaveTimersPending == old(leaveTimersPending) + 1
      ensures autoTimerPending == old(autoTimerPending) && mounted == old(mounted)
    {
      isLeaving := true;
      leaveTimersPending := leaveTimersPending + 1;
    }

    /** A click on the close button, which exists only on a mounted, rendered, dismissible toast. */
    method CloseClicked() returns (handled: bool)
      requires Valid()
      modifies this
      ensures Valid()
      ensures handled == (old(mounted) && old(isVisible) && config.dismissible)
      ensures isVisible == old(isVisible) && isLeaving == (old(isLeaving) || handled)
      ensures leaveTimersPending == old(leaveTimersPending) + (if handled then 1 else 0)
      ensures autoTimerPending == old(autoTimerPending) && mounted == old(mounted)
    {
      handled := mounted && isVisible && config.dismissible;
      if handled {
        HandleDismiss();
      }
    }

    /** The auto-dismiss timer elapses; a cleared or already-fired timer does nothing. */
    method AutoDismissTimerFires() returns (fired: bool)
      requires Valid()
      modifies this
      ensures Valid()
      ensures fired == old(autoTimerPending) && !autoTimerPending
      ensures isVisible == old(isVisible) && isLeaving == (old(isLeaving) || fired)
      ensures leaveTimersPending == old(leaveTimersPending) + (if fired then 1 else 0)
      ensures mounted == old(mounted)
      ensures PhaseRank(old(Phase())) <= PhaseRank(Phase())
    {
      fired := autoTimerPending;
      if fired {
        autoTimerPending := false;
        HandleDismiss();
      }
    }

    /** One leave timer elapses (`LeaveDelay` ms after its dismissal): the toast hides and reports its id to `onDismiss`. */
    method LeaveTimerFires() returns (dismissed: Option<string>)
      requires Valid()
      modifies this
      ensures Valid()
      ensures dismissed == (if old(leaveTimersPending) > 0 then Some(config.id) else None)
      ensures old(leaveTimersPending) > 0 ==> !isVisible && leaveTimersPending == old(leaveTimersPending) - 1
      ensures old(leaveTimersPending) == 0 ==> isVisible == old(isVisible) && leaveTimersPending == 0
      ensures isLeaving == old(isLeaving)
      ensures autoTimerPending == old(autoTimerPending) && mounted == old(mounted)
      ensures PhaseRank(old(Phase())) <= PhaseRank(Phase())
    {
      if leaveTimersPending > 0 {
        leaveTimersPending := leaveTimersPending - 1;
        isVisible := false;
        dismissed := Some(config.id);
      } else {
        dismissed := None;
      }
    }

    /** Unmounting clears the auto-dismiss timer; pending leave timers still run. */
    method Unmount()
      requires Valid()
      modifies this
      ensures Valid()
      ensures !mounted && !autoTimerPending
      ensures isVisible == old(isVisible) && isLeaving == old(isLeaving)
      ensures leaveTimersPending == old(leaveTimersPending)
    {
      mounted := false;
      autoTimerPending := false;
    }

    function Render(): (v: Option<ToastView>)
      reads this
      ensures v.None? <==> !isVisible
      ensures v.Some? ==> v.value.message == config.message && v.value.variant == config.variant
      ensures v.Some? ==> (v.value.fadingOut <==> isLeaving) && (v.value.closeButton <==> config.dismissible)
      ensures v.Some? ==> (v.value.assertive <==> config.variant == Error)
      ensures v.Some? ==> (v.value.title.Some? <==> config.title.Some? && config.title.value != "")
      ensures v.Some? && v.value.title.Some? ==> v.value.title == config.title
      ensures v.Some? ==> (v.value.actionShown <==> config.hasAction)
    {
      if !isVisible then None
      else
        var title := if config.title.Some? && config.title.value != "" then config.title else None;
        Some(ToastView(config.variant, title, config.message, config.hasAction, isLeaving,
                       config.dismissible, config.variant == Error))
    }
  }

  // ---------------------------------------------------------------------------
  // The module-level facade
  // ---------------------------------------------------------------------------

  const NotInitializedError := "Toast context not initialized. Make sure ToastProvider is rendered and setToastContext has been called."

  class ToastFacade {
    /** The bound provider; null until `setToastContext` runs. */
    var context: ToastProvider?
    /** Messages reported through `console.error`. */
    var errorLog: seq<string>

    constructor ()
      ensures context == null && errorLog == []
    {
      context := null;
      errorLog := [];
    }

    method SetToastContext(provider: ToastProvider)
      modifies this
      ensures context == provider && errorLog == old(errorLog)
    {
      context := provider;
    }

    /** `toast.show`: forwards to the bound provider, or logs an error and returns "". */
    method Show(input: ToastInput, seed: IdSeed) returns (id: string)
      modifies this, context
      ensures context == old(context)
      ensures old(context) == null ==> id == "" && errorLog == old(errorLog) + [NotInitializedError]
      ensures old(context) != null ==>
                && id == ToastId(seed)
                && context.toasts == old(context.toasts) + [ToastRecord(id, input)]
                && errorLog == old(errorLog)
    {
      if context == null {
        errorLog := errorLog + [NotInitializedError];
        id := "";
      } else {
        id := context.AddToast(input, seed);
      }
    }

    /** `toast.info`, `toast.success`, `toast.warning` and `toast.error`: each fixes its own variant. */
    method Notify(variant: Variant, message: string, options: ToastOptions, seed: IdSeed) returns (id: string)
      modifies context
      ensures errorLog == old(errorLog)
      ensures old(context) == null ==> id == ""
      ensures old(context) != null ==>
                && id == ToastId(seed)
                && context.toasts == old(context.toasts) + [ToastRecord(id, WithVariant(message, variant, options))]
    {
      if context == null {
        id := "";
      } else {
        id := context.AddToast(WithVariant(message, variant, options), seed);
      }
    }

    /** `toast.dismiss`: a no-op while unbound. */
    method Dismiss(id: string)
      modifies context
      ensures errorLog == old(errorLog)
      ensures context != null ==> context.toasts == Without(old(context.toasts), id)
    {
      if context != null {
        context.RemoveToast(id);
      }
    }

    /** `toast.dismissAll`: a no-op while unbound. */
    method DismissAll()
      modifies context
      ensures errorLog == old(errorLog)
      ensures context != null ==> context.toasts == []
    {
      if context != null {
        context.RemoveAllToasts();
      }
    }
  }
}
