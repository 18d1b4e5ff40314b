/** The doctor tally of the referrals route (`referringDoctorCounts` in
    src/app/api/cliniko/referrals/route.ts), as functions of the sequence of
    names the patients resolved to, in processing order: None for a patient
    whose doctor stayed unknown. */
module Tally {
  import opened Wrappers

  predicate Distinct<T(==)>(s: seq<T>) {
    forall i, j :: 0 <= i < j < |s| ==> s[i] != s[j]
  }

  /** The counts that `counts[name] = (counts[name] || 0) + 1` builds. */
  function Histogram(names: seq<Option<string>>): map<string, nat> {
    if names == [] then map[]
    else
      var counts := Histogram(names[..|names| - 1]);
      match names[|names| - 1]
      case None => counts
      case Some(name) => counts[name := (if name in counts then counts[name] else 0) + 1]
  }

  /** The keys of the tally in insertion order (the order of `Object.entries`). */
  function KeyOrder(names: seq<Option<string>>): seq<string> {
    if names == [] then []
    else
      var order := KeyOrder(names[..|names| - 1]);
      match names[|names| - 1]
      case None => order
      case Some(name) => if name in order then order else order + [name]
  }

  /** The number of patients whose doctor is known (`patientsWithKnownDoctor`). */
  function KnownCount(names: seq<Option<string>>): (n: nat)
    ensures n <= |names|
  {
    if names == [] then 0
    else KnownCount(names[..|names| - 1]) + (if names[|names| - 1].Some? then 1 else 0)
  }

  /** How often `name` occurs: the reference definition the tally is checked against. */
  function Occurrences(names: seq<Option<string>>, name: string): nat {
    if names == [] then 0
    else Occurrences(names[..|names| - 1], name) + (if names[|names| - 1] == Some(name) then 1 else 0)
  }

  /** The sum of the tally values of `keys`. */
  function SumOver(keys: seq<string>, counts: map<string, nat>): nat
    requires forall i :: 0 <= i < |keys| ==> keys[i] in counts
  {
    if keys == [] then 0
    else SumOver(keys[..|keys| - 1], counts) + counts[keys[|keys| - 1]]
  }

  /** One more patient: a known name adds one to its count, and a new name
      joins the key order at the end. */
  lemma TallyStep(names: seq<Option<string>>, next: Option<string>)
    ensures var counts, order := Histogram(names), KeyOrder(names);
      && Histogram(names + [next])
         == (if next.None? then counts
             else counts[next.value := (if next.value in counts then counts[next.value] else 0) + 1])
      && KeyOrder(names + [next])
         == (if next.None? || next.value in order then order else order + [next.value])
      && KnownCount(names + [next]) == KnownCount(names) + (if next.Some? then 1 else 0)
  {
    assert (names + [next])[..|names|] == names;
  }

  /** Each name's tally is the number of times it occurs, and the names that
      occur are exactly the keys. */
  lemma {:induction false} HistogramCounts(names: seq<Option<string>>, name: string)
    ensures name in Histogram(names) <==> Occurrences(names, name) > 0
    ensures name in Histogram(names) ==> Histogram(names)[name] == Occurrences(names, name)
  {
    if names != [] {
      HistogramCounts(names[..|names| - 1], name);
    }
  }

  /** The insertion order lists every key once, and only keys. */
  lemma {:induction false} KeyOrderMatchesKeys(names: seq<Option<string>>)
    ensures Distinct(KeyOrder(names))
    ensures forall name :: name in KeyOrder(names) <==> name in Histogram(names)
  {
    if names != [] {
      KeyOrderMatchesKeys(names[..|names| - 1]);
    }
  }

  lemma SumOverAppend(keys: seq<string>, key: string, counts: map<string, nat>)
    requires forall i :: 0 <= i < |keys| ==> keys[i] in counts
    requires key in counts
    ensures SumOver(keys + [key], counts) == SumOver(keys, counts) + counts[key]
  {
    assert (keys + [key])[..|keys|] == keys;
  }

  /** Changing the count of a key that is not listed leaves the sum alone;
      raising a listed key by one raises the sum by one. */
  lemma {:induction false} SumOverUpdate(keys: seq<string>, counts: map<string, nat>, key: string, value: nat)
    requires Distinct(keys)
    requires forall i :: 0 <= i < |keys| ==> keys[i] in counts
    requires key in keys ==> key in counts && value == counts[key] + 1
    ensures SumOver(keys, counts[key := value])
         == SumOver(keys, counts) + (if key in keys then 1 else 0)
  {
    if keys != [] {
      var init := keys[..|keys| - 1];
      assert key in init ==> key in keys;
      assert Distinct(init);
      assert key in keys <==> key in init || key == keys[|keys| - 1];
      assert key == keys[|keys| - 1] ==> key !in init;
      SumOverUpdate(init, counts, key, value);
    }
  }

  /** The tally values add up to the number of patients with a known doctor. */
  lemma {:induction false} TallySumIsKnownCount(names: seq<Option<string>>)
    ensures forall name :: name in KeyOrder(names) ==> name in Histogram(names)
    ensures SumOver(KeyOrder(names), Histogram(names)) == KnownCount(names)
  {
    KeyOrderMatchesKeys(names);
    if names != [] {
      var init := names[..|names| - 1];
      TallySumIsKnownCount(init);
      KeyOrderMatchesKeys(init);
      var order, counts := KeyOrder(init), Histogram(init);
      match names[|names| - 1]
      case None =>
      case Some(name) =>
        var value := (if name in counts then counts[name] else 0) + 1;
        SumOverUpdate(order, counts, name, value);
        if name !in order {
          SumOverAppend(order, name, counts[name := value]);
        }
    }
  }
}
