/**
 * Normalisation of a directory user's attribute list into a name-to-value map:
 * a left fold that copies the accumulated map and sets one entry per pair, so
 * that a later pair with the same name overwrites an earlier one.
 */
module Attributes {
  import opened Wrappers

  /** One `{Name, Value}` pair of the attribute list a directory returns. */
  datatype AttributeType = AttributeType(name: string, value: string)

  /** The names that occur somewhere in `entries`. */
  function Names(entries: seq<AttributeType>): set<string>
  {
    set i | 0 <= i < |entries| :: entries[i].name
  }

  /** `i` is the position of the last pair in `entries` with the name `entries[i].name`. */
  ghost predicate IsLastWithName(entries: seq<AttributeType>, i: int)
  {
    && 0 <= i < |entries|
    && forall j :: i < j < |entries| ==> entries[j].name != entries[i].name
  }

  /** The names of a non-empty list: the head's name and the names of the tail. */
  lemma NamesOfCons(entries: seq<AttributeType>)
    requires entries != []
    ensures Names(entries) == {entries[0].name} + Names(entries[1..])
  {
  }

  /**
   * The left fold that copies the accumulated map and sets one pair's name to
   * its value, started from `acc`: the keys are those of `acc` plus every name in the list, and a
   * key of `acc` that no pair names keeps its value.
   */
  function FoldFrom(acc: map<string, string>, entries: seq<AttributeType>): (m: map<string, string>)
    ensures m.Keys == acc.Keys + Names(entries)
    ensures forall k :: k in acc && k !in Names(entries) ==> m[k] == acc[k]
    decreases |entries|
  {
    if entries == [] then
      acc
    else
      NamesOfCons(entries);
      FoldFrom(acc[entries[0].name := entries[0].value], entries[1..])
  }

  /**
   * The attribute map of a directory user: the fold from the empty map when the
   * list is present, the empty map when it is missing.
   */
  function Normalise(userAttributes: Option<seq<AttributeType>>): (m: map<string, string>)
    ensures userAttributes.None? ==> m == map[]
    ensures userAttributes.Some? ==> m.Keys == Names(userAttributes.value)
  {
    match userAttributes
    case None => map[]
    case Some(entries) => FoldFrom(map[], entries)
  }

  /** The value the fold leaves under a name is the value of the last pair with that name. */
  lemma {:induction false} FoldFromLastWins(acc: map<string, string>, entries: seq<AttributeType>, i: int)
    requires IsLastWithName(entries, i)
    ensures entries[i].name in FoldFrom(acc, entries)
    ensures FoldFrom(acc, entries)[entries[i].name] == entries[i].value
    decreases |entries|
  {
    var acc' := acc[entries[0].name := entries[0].value];
    if i > 0 {
      assert forall j :: i - 1 < j < |entries[1..]| ==> entries[1..][j] == entries[j + 1];
      FoldFromLastWins(acc', entries[1..], i - 1);
    }
  }

  /** Every name in `entries` has a last pair carrying it. */
  lemma {:induction false} LastIndexExists(entries: seq<AttributeType>, k: string)
    requires k in Names(entries)
    ensures exists i :: IsLastWithName(entries, i) && entries[i].name == k
    decreases |entries|
  {
    var n := |entries|;
    if entries[n - 1].name == k {
      assert IsLastWithName(entries, n - 1);
    } else {
      var prefix := entries[..n - 1];
      var i0 :| 0 <= i0 < n && entries[i0].name == k;
      assert prefix[i0].name == k;
      LastIndexExists(prefix, k);
      var i :| IsLastWithName(prefix, i) && prefix[i].name == k;
      assert IsLastWithName(entries, i);
    }
  }

  /**
   * The normalised map holds exactly the names of the list, and each name maps
   * to the value of the last pair that carries it.
   */
  lemma NormaliseLastWins(entries: seq<AttributeType>, k: string)
    ensures k in Normalise(Some(entries)) <==> k in Names(entries)
    ensures k in Normalise(Some(entries)) ==>
      exists i :: IsLastWithName(entries, i) && entries[i].name == k
                  && entries[i].value == Normalise(Some(entries))[k]
  {
    if k in Names(entries) {
      LastIndexExists(entries, k);
      var i :| IsLastWithName(entries, i) && entries[i].name == k;
      FoldFromLastWins(map[], entries, i);
    }
  }
}
