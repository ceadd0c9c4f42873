/**
 * `RuleSet`: the ordered array of modifiers a renderer runs. The editor
 * grows and shrinks it by copying into a fresh array.
 */
module RuleSets {
  import opened Modifiers

  /**
   * The modifiers left after `RemoveAt(index)`: the element at `index`
   * goes, and so does the first one when `index` is negative, since then the
   * copy loop always takes its `old[i + 1]` branch.
   */
  function Without(s: seq<Modifier?>, index: int): (r: seq<Modifier?>)
    requires 0 < |s| && index < |s|
    ensures |r| == |s| - 1
    ensures forall k :: 0 <= k < |r| ==> r[k] == s[if k < index then k else k + 1]
    ensures multiset(r) == multiset(s) - multiset{s[if index < 0 then 0 else index]}
  {
    var j := if index < 0 then 0 else index;
    assert s == s[..j] + [s[j]] + s[j + 1..];
    s[..j] + s[j + 1..]
  }

  /** Removing the element just added gives back the original modifiers. */
  lemma AddThenRemove(s: seq<Modifier?>, m: Modifier?)
    ensures Without(s + [m], |s|) == s
  {
    var r := Without(s + [m], |s|);
    assert forall k :: 0 <= k < |s| ==> r[k] == s[k];
  }

  /** Removing by a negative index is removing the first modifier. */
  lemma NegativeRemovesFirst(s: seq<Modifier?>, index: int)
    requires 0 < |s| && index < 0
    ensures Without(s, index) == s[1..]
  {
  }

  class RuleSet {
    var modifiers: array?<Modifier?>

    /** The modifiers in order; an unset array holds none. */
    function Contents(): seq<Modifier?>
      reads this, modifiers
    {
      if modifiers == null then [] else modifiers[..]
    }

    /**
     * The field has no initialiser, so C# leaves it null until Unity serializes
     * an empty array; the model starts from null, which `Add` guards against.
     */
    constructor()
      ensures modifiers == null
    {
      modifiers := null;
    }

    /**
     * `Add`: an unset array becomes `[modifier]`; otherwise the modifiers are
     * copied into a fresh array one longer, with `modifier` last.
     */
    method Add(modifier: Modifier?)
      modifies this
      ensures modifiers != null && fresh(modifiers)
      ensures Contents() == old(Contents()) + [modifier]
    {
      if modifiers == null {
        modifiers := new Modifier?[1](_ => modifier);
      } else {
        var previous := modifiers;
        var grown := new Modifier?[previous.Length + 1];
        var i := 0;
        while i < previous.Length
          invariant 0 <= i <= previous.Length
          invariant forall k :: 0 <= k < i ==> grown[k] == previous[k]
        {
          grown[i] := previous[i];
          i := i + 1;
        }
        grown[previous.Length] := modifier;
        modifiers := grown;
        assert grown[..] == previous[..] + [modifier];
      }
    }

    /**
     * `RemoveAt`: when `index` is below the length, the modifiers are copied
     * into a fresh array one shorter, skipping the removed one; otherwise
     * nothing changes. The array must be set, and an empty array with a
     * negative index would need an array of length -1.
     */
    method RemoveAt(index: int)
      requires modifiers != null
      requires !(modifiers.Length == 0 && index < 0)
      modifies this
      ensures modifiers != null
      ensures old(modifiers.Length) > index ==> fresh(modifiers) && Contents() == Without(old(Contents()), index)
      ensures old(modifiers.Length) <= index ==> modifiers == old(modifiers)
    {
      if modifiers.Length > index {
        var previous := modifiers;
        var shrunk := new Modifier?[previous.Length - 1];
        var i := 0;
        while i < shrunk.Length
          invariant 0 <= i <= shrunk.Length
          invariant forall k :: 0 <= k < i ==> shrunk[k] == previous[if k < index then k else k + 1]
        {
          if i < index {
            shrunk[i] := previous[i];
          } else {
            shrunk[i] := previous[i + 1];
          }
          i := i + 1;
        }
        modifiers := shrunk;
        assert shrunk[..] == Without(previous[..], index);
      }
    }

    /** `InsertAt` has an empty body. */
    method InsertAt(index: int, modifier: Modifier?)
      ensures Contents() == old(Contents())
    {
    }
  }
}
