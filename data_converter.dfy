/**
 * DataConverter's class-name aliasing: each class name is given, on first
 * use, the decimal text of a counter that then moves on, so that distinct
 * class names get distinct aliases.
 */
module DataConverters {

  function DigitChar(d: nat): char
    requires d < 10
  {
    "0123456789"[d]
  }

  /** The decimal text of a natural number, as Java's "" + n writes it. */
  function NatToString(n: nat): (s: string)
    ensures |s| >= 1
    ensures (|s| == 1) <==> n < 10
  {
    if n < 10 then [DigitChar(n)] else NatToString(n / 10) + [DigitChar(n % 10)]
  }

  /** Different numbers have different decimal texts. */
  lemma {:induction false} LemmaNatToStringInjective(a: nat, b: nat)
    requires NatToString(a) == NatToString(b)
    ensures a == b
  {
    if a >= 10 && b >= 10 {
      var sa, sb := NatToString(a), NatToString(b);
      assert sa[..|sa| - 1] == NatToString(a / 10);
      assert sb[..|sb| - 1] == NatToString(b / 10);
      LemmaNatToStringInjective(a / 10, b / 10);
      assert DigitChar(a % 10) == sa[|sa| - 1] == DigitChar(b % 10);
    }
  }

  /** Every alias is the decimal text of a distinct counter value below next; ids records which. */
  ghost predicate ValidState(aliases: map<string, string>, ids: map<string, nat>, next: nat)
  {
    && ids.Keys == aliases.Keys
    && (forall k | k in aliases :: ids[k] < next && aliases[k] == NatToString(ids[k]))
    && (forall k1, k2 | k1 in ids && k2 in ids && k1 != k2 :: ids[k1] != ids[k2])
  }

  /** Giving a new name the counter's text and moving the counter on keeps the state valid. */
  lemma LemmaValidAdd(aliases: map<string, string>, ids: map<string, nat>, next: nat, className: string)
    requires ValidState(aliases, ids, next) && className !in aliases
    ensures ValidState(aliases[className := NatToString(next)], ids[className := next], next + 1)
  {
  }

  /** In a valid state distinct names have distinct aliases. */
  lemma LemmaValidUnique(aliases: map<string, string>, ids: map<string, nat>, next: nat)
    requires ValidState(aliases, ids, next)
    ensures forall k1, k2 | k1 in aliases && k2 in aliases && k1 != k2 :: aliases[k1] != aliases[k2]
  {
    forall k1, k2 | k1 in aliases && k2 in aliases && k1 != k2 ensures aliases[k1] != aliases[k2] {
      if aliases[k1] == aliases[k2] {
        LemmaNatToStringInjective(ids[k1], ids[k2]);
      }
    }
  }

  class DataConverter {
    var aliases: map<string, string>
    var nextClsId: nat
    /** The counter value each alias was made from. */
    ghost var ids: map<string, nat>

    ghost predicate Valid()
      reads this
    {
      ValidState(aliases, ids, nextClsId)
    }

    constructor ()
      ensures aliases == map[] && nextClsId == 0 && Valid()
    {
      aliases := map[];
      nextClsId := 0;
      ids := map[];
    }

    /**
     * alias: the class name's alias; a name seen for the first time gets the
     * decimal text of nextClsId, which then increases by one.
     */
    method Alias(className: string) returns (alias: string)
      requires Valid()
      modifies this
      ensures Valid()
      ensures className in old(aliases) ==>
        alias == old(aliases)[className] && aliases == old(aliases) && nextClsId == old(nextClsId)
      ensures className !in old(aliases) ==>
        && alias == NatToString(old(nextClsId))
        && nextClsId == old(nextClsId) + 1
        && aliases == old(aliases)[className := alias]
      ensures className in aliases && aliases[className] == alias
      ensures forall k | k in aliases && k != className :: aliases[k] != alias
    {
      if className in aliases {
        alias := aliases[className];
      } else {
        LemmaValidAdd(aliases, ids, nextClsId, className);
        alias := NatToString(nextClsId);
        ids := ids[className := nextClsId];
        nextClsId := nextClsId + 1;
        aliases := aliases[className := alias];
      }
      LemmaValidUnique(aliases, ids, nextClsId);
    }

    /** Every stored alias is the decimal text of a number below nextClsId. */
    lemma LemmaAliasesBelowCounter(k: string)
      requires Valid() && k in aliases
      ensures exists n: nat :: n < nextClsId && aliases[k] == NatToString(n)
    {
      var n := ids[k];
      assert n < nextClsId && aliases[k] == NatToString(n);
    }

    /** Distinct class names have distinct aliases. */
    lemma LemmaUniqueAliases(k1: string, k2: string)
      requires Valid() && k1 in aliases && k2 in aliases && k1 != k2
      ensures aliases[k1] != aliases[k2]
    {
      LemmaValidUnique(aliases, ids, nextClsId);
    }
  }
}
