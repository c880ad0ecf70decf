/**
 * The main application view's registry of settings views: one settings
 * view per processor, created on demand and deleted when the processor
 * goes away.
 */
module AppView {
  import opened Common

  /** A processor object, by identity. */
  type ProcessorRef = nat

  /**
   * A settings view. `serial` is the view object's identity (views are
   * numbered as they are created); `processor` is the processor it controls,
   * the one its `hasProcessor` compares against.
   */
  datatype SettingsView = SettingsView(serial: nat, processor: ProcessorRef)

  /** Index of the last view whose processor is `p`, if there is one. */
  function LastIndexFor(views: seq<SettingsView>, p: ProcessorRef): (r: Option<nat>)
    ensures r.None? <==> forall j :: 0 <= j < |views| ==> views[j].processor != p
    ensures r.Some? ==> r.value < |views| && views[r.value].processor == p
                        && forall j :: r.value < j < |views| ==> views[j].processor != p
  {
    if views == [] then None
    else if views[|views| - 1].processor == p then Some(|views| - 1)
    else LastIndexFor(views[..|views| - 1], p)
  }

  /** The views without the one at index `n`, the others in their order: `splice(n, 1)`. */
  function RemoveAt(views: seq<SettingsView>, n: nat): (r: seq<SettingsView>)
    requires n < |views|
    ensures |r| == |views| - 1
    ensures forall i :: 0 <= i < |r| ==> r[i] == views[if i < n then i else i + 1]
  {
    views[..n] + views[n + 1..]
  }

  /** The number of views for processor `p`. */
  function CountFor(views: seq<SettingsView>, p: ProcessorRef): (count: nat)
    ensures count <= |views|
  {
    if views == [] then 0
    else CountFor(views[..|views| - 1], p) + (if views[|views| - 1].processor == p then 1 else 0)
  }

  lemma {:induction false} CountForConcat(a: seq<SettingsView>, b: seq<SettingsView>, p: ProcessorRef)
    ensures CountFor(a + b, p) == CountFor(a, p) + CountFor(b, p)
  {
    if b == [] {
      assert a + b == a;
    } else {
      var m := |b| - 1;
      assert (a + b)[..|a + b| - 1] == a + b[..m];
      assert (a + b)[|a + b| - 1] == b[m];
      CountForConcat(a, b[..m], p);
    }
  }

  /**
   * Removing the view at `n` takes exactly one view away from that view's
   * processor and leaves every other processor's views as they were.
   */
  lemma RemoveAtCount(views: seq<SettingsView>, n: nat, q: ProcessorRef)
    requires n < |views|
    ensures CountFor(RemoveAt(views, n), q) == CountFor(views, q) - (if views[n].processor == q then 1 else 0)
  {
    assert views == views[..n] + [views[n]] + views[n + 1..];
    CountForConcat(views[..n] + [views[n]], views[n + 1..], q);
    CountForConcat(views[..n], [views[n]], q);
    CountForConcat(views[..n], views[n + 1..], q);
    assert CountFor([views[n]], q) == CountFor([], q) + (if views[n].processor == q then 1 else 0) by {
      assert [views[n]][..0] == [];
    }
  }

  /** A processor has views exactly when it has a last one. */
  lemma {:induction false} CountForPositive(views: seq<SettingsView>, p: ProcessorRef)
    ensures CountFor(views, p) > 0 <==> LastIndexFor(views, p).Some?
  {
    if views != [] {
      CountForPositive(views[..|views| - 1], p);
    }
  }

  /** Every view has its own serial, below the next one to be handed out. */
  ghost predicate SerialsOk(views: seq<SettingsView>, next: nat) {
    && (forall i :: 0 <= i < |views| ==> views[i].serial < next)
    && (forall i, j :: 0 <= i < j < |views| ==> views[i].serial != views[j].serial)
  }

  class AppView {
    /** `settingsViews`, in creation order. */
    var settingsViews: seq<SettingsView>
    var nextSerial: nat
    /** The views whose `terminate` was called, in order. */
    var terminated: seq<SettingsView>

    ghost predicate Valid()
      reads this
    {
      SerialsOk(settingsViews, nextSerial)
    }

    constructor ()
      ensures Valid()
      ensures settingsViews == [] && terminated == []
    {
      settingsViews := [];
      nextSerial := 0;
      terminated := [];
    }

    /** `createSettingsView`: a new view for `processor`, appended to the list. */
    method CreateSettingsView(processor: ProcessorRef)
      requires Valid()
      modifies this`settingsViews, this`nextSerial
      ensures Valid()
      ensures settingsViews == old(settingsViews) + [SettingsView(old(nextSerial), processor)]
      ensures nextSerial == old(nextSerial) + 1
      ensures CountFor(settingsViews, processor) == CountFor(old(settingsViews), processor) + 1
    {
      settingsViews := settingsViews + [SettingsView(nextSerial, processor)];
      nextSerial := nextSerial + 1;
      assert settingsViews[..|settingsViews| - 1] == old(settingsViews);
    }

    /**
     * `deleteSettingsView`: search from the last view down; the first view
     * found for `processor` is terminated and spliced out, and the call
     * returns `false`. Without a view for `processor` nothing happens and
     * the call returns `undefined` (`None`).
     */
    method DeleteSettingsView(processor: ProcessorRef) returns (r: Option<bool>)
      requires Valid()
      modifies this`settingsViews, this`terminated
      ensures Valid()
      ensures match LastIndexFor(old(settingsViews), processor)
        case None =>
          r == None && settingsViews == old(settingsViews) && terminated == old(terminated)
        case Some(n) =>
          && r == Some(false)
          && settingsViews == RemoveAt(old(settingsViews), n)
          && terminated == old(terminated) + [old(settingsViews)[n]]
          && old(settingsViews)[n] !in settingsViews
          && CountFor(settingsViews, processor) == CountFor(old(settingsViews), processor) - 1
    {
      var n := |settingsViews|;
      while n > 0
        invariant 0 <= n <= |settingsViews|
        invariant settingsViews == old(settingsViews) && terminated == old(terminated)
        invariant forall j :: n <= j < |settingsViews| ==> settingsViews[j].processor != processor
      {
        n := n - 1;
        if settingsViews[n].processor == processor {
          LastIndexAt(settingsViews, processor, n);
          RemoveAtCount(settingsViews, n, processor);
          RemoveAtSerialsOk(settingsViews, n, nextSerial);
          RemoveAtGone(settingsViews, n, nextSerial);
          terminated := terminated + [settingsViews[n]];
          settingsViews := RemoveAt(settingsViews, n);
          return Some(false);
        }
      }
      return None;
    }

    /** `createMIDIPortView` has an empty body: it changes nothing and returns `undefined`. */
    method CreateMIDIPortView(processor: ProcessorRef) returns (r: Option<bool>)
      ensures r == None
    {
      r := None;
    }

    /** `deleteMIDIPortView` has an empty body: it changes nothing and returns `undefined`. */
    method DeleteMIDIPortView(processor: ProcessorRef) returns (r: Option<bool>)
      ensures r == None
    {
      r := None;
    }
  }

  /** A view for `p` with no later view for `p` is the last one. */
  lemma {:induction false} LastIndexAt(views: seq<SettingsView>, p: ProcessorRef, n: nat)
    requires n < |views| && views[n].processor == p
    requires forall j :: n < j < |views| ==> views[j].processor != p
    ensures LastIndexFor(views, p) == Some(n)
  {
    if n < |views| - 1 {
      LastIndexAt(views[..|views| - 1], p, n);
    }
  }

  /** With distinct serials, the view spliced out appears nowhere in what is left. */
  lemma RemoveAtGone(views: seq<SettingsView>, n: nat, next: nat)
    requires n < |views| && SerialsOk(views, next)
    ensures views[n] !in RemoveAt(views, n)
  {
    var r := RemoveAt(views, n);
    forall i | 0 <= i < |r| ensures r[i] != views[n] {
      assert r[i].serial == views[if i < n then i else i + 1].serial;
    }
  }

  lemma RemoveAtSerialsOk(views: seq<SettingsView>, n: nat, next: nat)
    requires n < |views| && SerialsOk(views, next)
    ensures SerialsOk(RemoveAt(views, n), next)
  {
  }
}
