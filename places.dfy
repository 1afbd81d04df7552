/** Place records returned by the places service and the address-defaulting
    pass that the results handler runs over them before rendering. */
module Places {
  import opened Wrappers

  /** The key the results page reads for a place's address. */
  const AddressKey := "address"

  /** What a place without an address is shown with. */
  const AddressFallback := "Address not available"

  /** A GeoJSON feature as far as the handler looks at it: its optional
      `properties` dictionary (values are kept as text). */
  datatype Place = Place(properties: Option<map<string, string>>)

  predicate HasAddress(p: Place)
  {
    p.properties.Some? && AddressKey in p.properties.value
  }

  /** Every place carries a `properties` dictionary, so the write into it
      cannot fail. */
  predicate AllHaveProperties(ps: seq<Place>)
  {
    forall i :: 0 <= i < |ps| ==> ps[i].properties.Some?
  }

  /** One iteration of the loop: look up `properties.address` with the
      fallback as default and store the answer back under `address`. A place
      without `properties` is left as it is (the source fails on it; see
      NormaliseAddresses). */
  function WithAddress(p: Place): (q: Place)
    ensures q.properties.Some? <==> p.properties.Some?
    ensures p.properties.None? || HasAddress(p) ==> q == p
    ensures p.properties.Some? ==>
      && HasAddress(q)
      && q.properties.value.Keys == p.properties.value.Keys + {AddressKey}
      && (forall k :: k in p.properties.value ==> q.properties.value[k] == p.properties.value[k])
      && (AddressKey !in p.properties.value ==> q.properties.value[AddressKey] == AddressFallback)
  {
    match p.properties
    case None => p
    case Some(m) =>
      var address := if AddressKey in m then m[AddressKey] else AddressFallback;
      assert AddressKey in m ==> m[AddressKey := address] == m;
      Place(Some(m[AddressKey := address]))
  }

  /** The whole loop, place by place, in order. */
  function FillAddresses(ps: seq<Place>): (r: seq<Place>)
    ensures |r| == |ps|
  {
    if ps == [] then [] else [WithAddress(ps[0])] + FillAddresses(ps[1..])
  }

  lemma {:induction false} FillAddressesAt(ps: seq<Place>, i: nat)
    requires i < |ps|
    ensures FillAddresses(ps)[i] == WithAddress(ps[i])
  {
    if i > 0 {
      FillAddressesAt(ps[1..], i - 1);
    }
  }

  lemma {:induction false} FillAddressesAppend(xs: seq<Place>, ys: seq<Place>)
    ensures FillAddresses(xs + ys) == FillAddresses(xs) + FillAddresses(ys)
  {
    if xs == [] {
      assert xs + ys == ys;
    } else {
      assert (xs + ys)[1..] == xs[1..] + ys;
      FillAddressesAppend(xs[1..], ys);
    }
  }

  /** The pass keeps the number and order of places, gives every place that
      has `properties` an address, keeps addresses already present and
      defaults the missing ones to the fallback. */
  lemma FillAddressesSpec(ps: seq<Place>)
    ensures |FillAddresses(ps)| == |ps|
    ensures forall i :: 0 <= i < |ps| ==> FillAddresses(ps)[i] == WithAddress(ps[i])
    ensures AllHaveProperties(ps) ==> forall i :: 0 <= i < |ps| ==> HasAddress(FillAddresses(ps)[i])
    ensures forall i :: 0 <= i < |ps| && HasAddress(ps[i]) ==> FillAddresses(ps)[i] == ps[i]
  {
    forall i | 0 <= i < |ps|
      ensures FillAddresses(ps)[i] == WithAddress(ps[i])
    {
      FillAddressesAt(ps, i);
    }
  }

  /** Running the pass a second time changes nothing. */
  lemma {:induction false} FillAddressesIdempotent(ps: seq<Place>)
    ensures FillAddresses(FillAddresses(ps)) == FillAddresses(ps)
  {
    if ps != [] {
      var rest := FillAddresses(ps[1..]);
      assert FillAddresses(ps) == [WithAddress(ps[0])] + rest;
      FillAddressesAppend([WithAddress(ps[0])], rest);
      assert FillAddresses([WithAddress(ps[0])]) == [WithAddress(WithAddress(ps[0]))];
      FillAddressesIdempotent(ps[1..]);
    }
  }

  /** The loop as it runs on the list of places, updating each place in
      place. It stops at the first place without `properties`, where the
      source's write raises; `processed` is the number of places already
      updated by then, and it is the whole array exactly when every place has
      `properties`. */
  method NormaliseAddresses(places: array<Place>) returns (processed: nat)
    modifies places
    ensures processed <= places.Length
    ensures processed == places.Length <==> AllHaveProperties(old(places[..]))
    ensures AllHaveProperties(old(places[..processed]))
    ensures processed < places.Length ==> old(places[processed]).properties.None?
    ensures places[..] == FillAddresses(old(places[..processed])) + old(places[processed..])
  {
    ghost var orig := places[..];
    var i := 0;
    while i < places.Length && places[i].properties.Some?
      invariant 0 <= i <= places.Length
      invariant forall j :: 0 <= j < i ==> orig[j].properties.Some?
      invariant forall j :: 0 <= j < i ==> places[j] == WithAddress(orig[j])
      invariant forall j :: i <= j < places.Length ==> places[j] == orig[j]
    {
      places[i] := WithAddress(places[i]);
      i := i + 1;
    }
    processed := i;
    assert AllHaveProperties(orig[..i]);
    ghost var done := FillAddresses(orig[..i]);
    forall j | 0 <= j < i
      ensures done[j] == places[j]
    {
      FillAddressesAt(orig[..i], j);
    }
    assert places[..] == done + orig[i..];
  }
}
