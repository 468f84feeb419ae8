/** Encoding of a command's shortcut list as a list of strings, with a
    trailing "DISABLED" marker for a global shortcut set that is switched off
    (src/gui/commandwidget.cpp:37-74). A key sequence is represented by its
    portable text, so converting between the two is the identity here. */
module Shortcuts {

  /** The marker appended to a disabled, non-empty shortcut list. */
  const Disabled: string := "DISABLED"

  // ---------------------------------------------------------------------
  // Specification of the encoding
  // ---------------------------------------------------------------------

  /** What serializing `shortcuts` with flag `enabled` produces. */
  function Serialized(shortcuts: seq<string>, enabled: bool): seq<string>
  {
    if !enabled && shortcuts != [] then shortcuts + [Disabled] else shortcuts
  }

  /** The shortcut list a decoder rebuilds: every entry except the marker,
      in the original order. */
  function WithoutMarker(texts: seq<string>): (r: seq<string>)
    ensures |r| <= |texts|
    ensures forall x :: x in r <==> x in texts && x != Disabled
  {
    if texts == [] then []
    else
      var last := texts[|texts| - 1];
      WithoutMarker(texts[..|texts| - 1]) + (if last == Disabled then [] else [last])
  }

  /** The enabled flag a decoder reports: set only for a non-empty list that
      carries no marker anywhere. */
  predicate DecodedEnabled(texts: seq<string>)
  {
    texts != [] && Disabled !in texts
  }

  /** The lists that are the encoding of some (shortcuts, enabled) pair. */
  predicate Canonical(texts: seq<string>)
  {
    Disabled !in texts
    || (|texts| >= 2 && texts[|texts| - 1] == Disabled && Disabled !in texts[..|texts| - 1])
  }

  /** Number of entries of `texts` equal to `x`. */
  function Count(texts: seq<string>, x: string): nat
  {
    if texts == [] then 0
    else Count(texts[..|texts| - 1], x) + (if texts[|texts| - 1] == x then 1 else 0)
  }

  // ---------------------------------------------------------------------
  // Properties of the encoding
  // ---------------------------------------------------------------------

  /** The encoding keeps every shortcut in order as its leading part and adds
      the marker exactly when the set is disabled and non-empty. */
  lemma SerializedShape(shortcuts: seq<string>, enabled: bool)
    ensures var r := Serialized(shortcuts, enabled);
      && |r| == (if !enabled && shortcuts != [] then |shortcuts| + 1 else |shortcuts|)
      && r[..|shortcuts|] == shortcuts
      && (!enabled && shortcuts != [] ==> r[|shortcuts|] == Disabled)
      && (shortcuts == [] ==> r == [])
  {
  }

  /** Dropping the marker leaves a list without it, whose length is the
      original length minus the number of markers. */
  lemma {:induction false} WithoutMarkerCount(texts: seq<string>)
    ensures |WithoutMarker(texts)| + Count(texts, Disabled) == |texts|
  {
    if texts != [] {
      WithoutMarkerCount(texts[..|texts| - 1]);
    }
  }

  /** A list without the marker decodes to itself. */
  lemma {:induction false} WithoutMarkerIdentity(texts: seq<string>)
    requires Disabled !in texts
    ensures WithoutMarker(texts) == texts
  {
    if texts != [] {
      var init := texts[..|texts| - 1];
      assert Disabled !in init by {
        forall x | x in init ensures x != Disabled {
          var k :| 0 <= k < |init| && init[k] == x;
          assert texts[k] == x;
        }
      }
      WithoutMarkerIdentity(init);
      assert init + [texts[|texts| - 1]] == texts;
    }
  }

  /** Removing the marker distributes over concatenation. */
  lemma {:induction false} WithoutMarkerAppend(a: seq<string>, b: seq<string>)
    ensures WithoutMarker(a + b) == WithoutMarker(a) + WithoutMarker(b)
  {
    if b != [] {
      var init := b[..|b| - 1];
      assert (a + b)[..|a + b| - 1] == a + init;
      WithoutMarkerAppend(a, init);
    } else {
      assert a + b == a;
    }
  }

  /** Round trip: decoding the encoding of a marker-free list gives the list
      back, and gives the flag back when the list is non-empty; an empty list
      always comes back disabled. */
  lemma RoundTrip(shortcuts: seq<string>, enabled: bool)
    requires Disabled !in shortcuts
    ensures WithoutMarker(Serialized(shortcuts, enabled)) == shortcuts
    ensures DecodedEnabled(Serialized(shortcuts, enabled)) == (enabled && shortcuts != [])
  {
    WithoutMarkerIdentity(shortcuts);
    if !enabled && shortcuts != [] {
      WithoutMarkerAppend(shortcuts, [Disabled]);
      assert WithoutMarker([Disabled]) == [];
    }
  }

  /** Re-encoding what a list decodes to gives the list back exactly when the
      list is canonical: no marker, or one marker at the end after at least
      one shortcut. */
  lemma ReencodeIffCanonical(texts: seq<string>)
    ensures Serialized(WithoutMarker(texts), DecodedEnabled(texts)) == texts <==> Canonical(texts)
  {
    var w := WithoutMarker(texts);
    var e := DecodedEnabled(texts);
    if Canonical(texts) {
      if Disabled in texts {
        var init := texts[..|texts| - 1];
        WithoutMarkerIdentity(init);
        assert texts == init + [Disabled];
        assert w == init;
        assert Serialized(w, e) == texts;
      } else {
        WithoutMarkerIdentity(texts);
      }
    }
    // Whatever the decoder yields re-encodes to a canonical list.
    SerializedCanonical(w, e);
  }

  /** Encoding a marker-free list gives a canonical list. */
  lemma SerializedCanonical(shortcuts: seq<string>, enabled: bool)
    requires Disabled !in shortcuts
    ensures Canonical(Serialized(shortcuts, enabled))
  {
    if !enabled && shortcuts != [] {
      assert Serialized(shortcuts, enabled)[..|shortcuts|] == shortcuts;
    }
  }

  // ---------------------------------------------------------------------
  // The widgets the decoder writes to
  // ---------------------------------------------------------------------

  /** The shortcut button: the ordered list of shortcuts it holds. */
  class ShortcutButton {
    var shortcuts: seq<string>

    constructor ()
      ensures shortcuts == []
    {
      shortcuts := [];
    }

    /** The number of shortcuts the button holds. */
    function ShortcutCount(): (n: nat)
      reads this
    {
      |shortcuts|
    }

    method ResetShortcuts()
      modifies this
      ensures shortcuts == []
    {
      shortcuts := [];
    }

    method AddShortcut(text: string)
      modifies this
      ensures shortcuts == old(shortcuts) + [text]
    {
      shortcuts := shortcuts + [text];
    }
  }

  /** A check box: only its checked state matters here. */
  class CheckBox {
    var checked: bool

    constructor ()
      ensures !checked
    {
      checked := false;
    }

    method SetChecked(value: bool)
      modifies this
      ensures checked == value
    {
      checked := value;
    }
  }

  // ---------------------------------------------------------------------
  // The encoder and the decoder
  // ---------------------------------------------------------------------

  /** Encodes `shortcuts`, appending the marker for a disabled non-empty set
      (src/gui/commandwidget.cpp:43-54). */
  method SerializeShortcuts(shortcuts: seq<string>, enabled: bool) returns (texts: seq<string>)
    ensures texts == Serialized(shortcuts, enabled)
    ensures texts[..|shortcuts|] == shortcuts
    ensures !enabled && shortcuts != [] <==> |texts| == |shortcuts| + 1
  {
    texts := [];
    for i := 0 to |shortcuts|
      invariant texts == shortcuts[..i]
    {
      texts := texts + [shortcuts[i]];
    }
    if !enabled && texts != [] {
      texts := texts + [Disabled];
    }
  }

  /** Decodes `texts` into `button`, and into `checkBox` when there is one
      (src/gui/commandwidget.cpp:56-74). Whatever the button held before is
      discarded. */
  method DeserializeShortcuts(texts: seq<string>, button: ShortcutButton, checkBox: CheckBox?)
    modifies button, checkBox
    ensures button.shortcuts == WithoutMarker(texts)
    ensures checkBox != null ==> checkBox.checked == DecodedEnabled(texts)
  {
    button.ResetShortcuts();
    var enabled := texts != [];
    for i := 0 to |texts|
      invariant button.shortcuts == WithoutMarker(texts[..i])
      invariant enabled == (texts != [] && Disabled !in texts[..i])
    {
      assert texts[..i + 1][..i] == texts[..i];
      if texts[i] == Disabled {
        enabled := false;
      } else {
        button.AddShortcut(texts[i]);
      }
    }
    assert texts[..|texts|] == texts;
    if checkBox != null {
      checkBox.SetChecked(enabled);
    }
  }
}
