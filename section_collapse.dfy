/**
 * The section order of the structured editor and its per-section collapse
 * flags: a master value broadcast to every section, and single toggles.
 */
module SectionCollapse {
  import opened Wrappers
  import opened Schema

  /** The order in which the sections are laid out. */
  const SectionOrder: seq<SectionKey> :=
    [Header, Imports, Settings, Variables, Classes, Functions, Conditions, Loops, Errors, Flow, Comments]

  /** Where a key stands in the order. */
  function Position(k: SectionKey): (i: nat)
    ensures i < |SectionOrder| && SectionOrder[i] == k
  {
    match k
    case Header => 0
    case Imports => 1
    case Settings => 2
    case Variables => 3
    case Classes => 4
    case Functions => 5
    case Conditions => 6
    case Loops => 7
    case Errors => 8
    case Flow => 9
    case Comments => 10
  }

  /** The order holds each of the eleven section keys exactly once, in the documented order. */
  lemma SectionOrderIsPermutation()
    ensures |SectionOrder| == 11
    ensures forall k: SectionKey :: k in SectionOrder
    ensures forall i, j :: 0 <= i < j < |SectionOrder| ==> SectionOrder[i] != SectionOrder[j]
    ensures seq(|SectionOrder|, i requires 0 <= i < |SectionOrder| => KeyName(SectionOrder[i]))
         == ["Header", "Imports", "Settings", "Variables", "Classes", "Functions", "Conditions", "Loops", "Errors", "Flow", "Comments"]
  {
    forall k: SectionKey ensures k in SectionOrder {
      assert SectionOrder[Position(k)] == k;
    }
  }

  /** Every section flag set to `m`. */
  function Uniform(m: bool): (r: map<SectionKey, bool>)
    ensures forall k: SectionKey :: k in r && r[k] == m
  {
    SectionKeysExact();
    map k: SectionKey | k in AllSectionKeys :: m
  }

  /** Whether some section's flag differs from `m` (the effect's `needsUpdate`). */
  predicate Differs(prev: map<SectionKey, bool>, m: bool) {
    exists k: SectionKey :: k in prev && prev[k] != m
  }

  /** The master broadcast: all flags set to `m`, or the previous state itself when nothing would change. */
  function Broadcast(prev: map<SectionKey, bool>, m: bool): (r: map<SectionKey, bool>)
    requires forall k: SectionKey :: k in prev
    ensures r == Uniform(m)
    ensures !Differs(prev, m) ==> r == prev
  {
    if Differs(prev, m) then Uniform(m) else prev
  }

  /** `{...prev, [key]: !prev[key]}` */
  function Toggled(prev: map<SectionKey, bool>, key: SectionKey): (r: map<SectionKey, bool>)
    requires key in prev
    ensures r.Keys == prev.Keys
    ensures r[key] == !prev[key]
    ensures forall k :: k in prev && k != key ==> r[k] == prev[k]
  {
    prev[key := !prev[key]]
  }

  /** Toggling the same section twice restores the state; toggles of two sections commute. */
  lemma ToggleInvolutive(prev: map<SectionKey, bool>, a: SectionKey, b: SectionKey)
    requires a in prev && b in prev
    ensures Toggled(Toggled(prev, a), a) == prev
    ensures Toggled(Toggled(prev, a), b) == Toggled(Toggled(prev, b), a)
  {
  }

  /** A broadcast after any toggles leaves every section at the master value; a second broadcast changes nothing. */
  lemma BroadcastOverridesToggles(prev: map<SectionKey, bool>, key: SectionKey, m: bool)
    requires forall k: SectionKey :: k in prev
    ensures Broadcast(Toggled(prev, key), m) == Uniform(m)
    ensures !Differs(Broadcast(prev, m), m)
    ensures Broadcast(Broadcast(prev, m), m) == Broadcast(prev, m)
  {
    var t := Toggled(prev, key);
    assert forall k: SectionKey :: k in t;
    var u := Uniform(m);
    assert !Differs(u, m);
  }

  /** The per-section collapse flags of the structured editor. */
  class CollapseState {
    var collapsed: map<SectionKey, bool>

    /** Every section has a flag. */
    ghost predicate Valid()
      reads this
    {
      forall k: SectionKey :: k in collapsed
    }

    /** The initial state: every flag the master value, or `false` when there is none. */
    constructor (master: Option<bool>)
      ensures Valid()
      ensures collapsed == Uniform(master.GetOr(false))
    {
      var initialValue := if master.None? then false else master.value;
      var states: map<SectionKey, bool> := map[];
      var i := 0;
      while i < |SectionOrder|
        invariant 0 <= i <= |SectionOrder|
        invariant forall j :: 0 <= j < i ==> SectionOrder[j] in states
        invariant forall k :: k in states ==> states[k] == initialValue
      {
        states := states[SectionOrder[i] := initialValue];
        i := i + 1;
      }
      assert forall k: SectionKey :: k in states by {
        forall k: SectionKey ensures k in states {
          assert SectionOrder[Position(k)] == k;
        }
      }
      collapsed := states;
    }

    /** Whether a section is collapsed. */
    function IsCollapsed(key: SectionKey): bool
      reads this
      requires Valid()
    {
      collapsed[key]
    }

    /**
     * The effect run when the master value changes: with a master value,
     * build the uniform state in section order while noting whether any
     * flag differs, and install it only then. `updated` says whether the
     * state was replaced.
     */
    method ApplyMaster(master: Option<bool>) returns (updated: bool)
      requires Valid()
      modifies this
      ensures Valid()
      ensures master.Some? ==> collapsed == Broadcast(old(collapsed), master.value)
      ensures master.None? ==> collapsed == old(collapsed)
      ensures updated <==> master.Some? && Differs(old(collapsed), master.value)
    {
      updated := false;
      if master.Some? {
        var m := master.value;
        var newStates: map<SectionKey, bool> := map[];
        var needsUpdate := false;
        var i := 0;
        while i < |SectionOrder|
          invariant 0 <= i <= |SectionOrder|
          invariant forall j :: 0 <= j < i ==> SectionOrder[j] in newStates
          invariant forall k :: k in newStates ==> newStates[k] == m
          invariant needsUpdate <==> exists j :: 0 <= j < i && collapsed[SectionOrder[j]] != m
        {
          var key := SectionOrder[i];
          newStates := newStates[key := m];
          if collapsed[key] != m {
            needsUpdate := true;
          }
          i := i + 1;
        }
        assert needsUpdate <==> Differs(collapsed, m) by {
          if Differs(collapsed, m) {
            var k: SectionKey :| k in collapsed && collapsed[k] != m;
            assert SectionOrder[Position(k)] == k;
          }
        }
        if needsUpdate {
          assert newStates == Uniform(m) by {
            forall k: SectionKey ensures k in newStates {
              assert SectionOrder[Position(k)] == k;
            }
          }
          collapsed := newStates;
        }
        updated := needsUpdate;
      }
    }

    /** toggleSectionCollapse */
    method Toggle(key: SectionKey)
      requires Valid()
      modifies this
      ensures Valid()
      ensures collapsed == Toggled(old(collapsed), key)
    {
      collapsed := collapsed[key := !collapsed[key]];
    }
  }

  /** A toggle and a master change in sequence: the master value wins over the toggled section. */
  method ToggleThenMaster(master: bool, key: SectionKey) returns (flags: map<SectionKey, bool>, updated: bool)
    ensures flags == Uniform(master)
    ensures updated
  {
    var state := new CollapseState(Some(master));
    state.Toggle(key);
    ghost var toggled := state.collapsed;
    assert toggled[key] != master;
    updated := state.ApplyMaster(Some(master));
    flags := state.collapsed;
  }

}
