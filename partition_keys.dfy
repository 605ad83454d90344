/**
 * Partition keys, get_partition_keys and create_file_key in
 * awspricecalculator/common/phelper.py: the cross product of regions, terms and
 * product families (reserved terms further crossed with offering class,
 * tenancy and purchase option), each tuple encoded as one file key.
 */
module PartitionKeys {
  import opened Wrappers

  /**
   * A dictionary of the constants module (REGION_MAP, TERM_TYPE_MAP, ...):
   * human-facing key to canonical code, listed in the dictionary's iteration order.
   */
  datatype DimensionMap = DimensionMap(entries: seq<(string, string)>)

  /** The constants get_partition_keys reads. */
  datatype Constants = Constants(regionMap: DimensionMap, termTypeMap: DimensionMap,
                                 supportedProductFamilies: seq<string>,
                                 offeringClassMap: DimensionMap, tenancyMap: DimensionMap,
                                 purchaseOptionMap: DimensionMap, termTypeReserved: string)

  /** The optional keyword arguments offeringClasses, tenancies and purchaseOptions. */
  datatype ExtraArgs = ExtraArgs(offeringClasses: Option<seq<string>>, tenancies: Option<seq<string>>,
                                 purchaseOptions: Option<seq<string>>)

  /** The KeyError a dictionary lookup raises for a key it does not hold. */
  datatype KeyError = KeyError(key: string)

  /** dict.values(): the codes, in the dictionary's iteration order. */
  function Values(m: DimensionMap): seq<string> {
    seq(|m.entries|, i requires 0 <= i < |m.entries| => m.entries[i].1)
  }

  /** dict[key]: the code stored under the key, or None where Python raises KeyError. */
  function Lookup(m: DimensionMap, key: string): (r: Option<string>)
    ensures r.None? <==> forall i :: 0 <= i < |m.entries| ==> m.entries[i].0 != key
    ensures r.Some? ==> exists i :: 0 <= i < |m.entries| && m.entries[i] == (key, r.value)
    decreases |m.entries|
  {
    if m.entries == [] then None
    else if m.entries[0].0 == key then Some(m.entries[0].1)
    else
      var r := Lookup(DimensionMap(m.entries[1..]), key);
      assert r.Some? ==> exists i :: 1 <= i < |m.entries| && m.entries[i] == (key, r.value) by {
        if r.Some? {
          var i :| 0 <= i < |m.entries| - 1 && m.entries[1..][i] == (key, r.value);
          assert m.entries[i + 1] == (key, r.value);
        }
      }
      assert r.None? ==> forall i :: 1 <= i < |m.entries| ==> m.entries[i].0 != key by {
        if r.None? {
          forall i | 1 <= i < |m.entries| ensures m.entries[i].0 != key {
            assert m.entries[i] == m.entries[1..][i - 1];
          }
        }
      }
      r
  }

  /** No two entries of the map share a key, as in a Python dictionary. */
  predicate DistinctKeys(m: DimensionMap) {
    forall i, j :: 0 <= i < j < |m.entries| ==> m.entries[i].0 != m.entries[j].0
  }

  /** In a map with distinct keys, the i-th value is what looking up the i-th key returns. */
  lemma ValuesAreLookups(m: DimensionMap)
    requires DistinctKeys(m)
    ensures forall i :: 0 <= i < |m.entries| ==> Lookup(m, m.entries[i].0) == Some(Values(m)[i])
  {
    forall i | 0 <= i < |m.entries|
      ensures Lookup(m, m.entries[i].0) == Some(Values(m)[i])
    {
      var r := Lookup(m, m.entries[i].0);
      assert r.Some?;
      var j :| 0 <= j < |m.entries| && m.entries[j] == (m.entries[i].0, r.value);
      assert j == i;
    }
  }

  /** Python's truth test on an optional argument: None and the empty string are false. */
  predicate Truthy(choice: Option<string>) {
    choice.Some? && choice.value != ""
  }

  /**
   * The codes one dimension is restricted to: the single code of a given key,
   * or all codes of the map when no key is given.
   */
  function Select(m: DimensionMap, choice: Option<string>): (r: Result<seq<string>, KeyError>)
    ensures !Truthy(choice) ==> r == Success(Values(m))
    ensures Truthy(choice) && r.Success? ==>
      |r.value| == 1 && exists i :: 0 <= i < |m.entries| && m.entries[i] == (choice.value, r.value[0])
    ensures Truthy(choice) ==> (r.Failure? <==> forall i :: 0 <= i < |m.entries| ==> m.entries[i].0 != choice.value)
    ensures r.Failure? ==> r.error == KeyError(choice.value)
  {
    if Truthy(choice) then
      match Lookup(m, choice.value)
      case Some(code) => Success([code])
      case None => Failure(KeyError(choice.value))
    else Success(Values(m))
  }

  /** dict.get(key, default) on the keyword arguments. */
  function GetOr(arg: Option<seq<string>>, default: seq<string>): seq<string> {
    match arg
    case Some(v) => v
    case None => default
  }

  // ---------------------------------------------------------------------------
  // File keys

  /** str.replace(' ', ''): the string with every space removed. */
  function StripSpaces(s: string): (r: string)
    ensures ' ' !in r
    ensures |r| <= |s|
    decreases |s|
  {
    if s == [] then [] else (if s[0] == ' ' then [] else [s[0]]) + StripSpaces(s[1..])
  }

  /** The elements of a tuple concatenated in order. */
  function Concat(dims: seq<string>): string
    decreases |dims|
  {
    if dims == [] then "" else Concat(dims[..|dims| - 1]) + dims[|dims| - 1]
  }

  /** The key create_file_key gives a tuple of dimension codes. */
  function FileKey(dims: seq<string>): (key: string)
    ensures ' ' !in key
  {
    StripSpaces(Concat(dims))
  }

  /** create_file_key: concatenate the tuple's elements, then remove every space. */
  method CreateFileKey(indexDimensions: seq<string>) returns (key: string)
    ensures key == FileKey(indexDimensions)
  {
    var result := "";
    for i := 0 to |indexDimensions|
      invariant result == Concat(indexDimensions[..i])
    {
      result := result + indexDimensions[i];
      assert indexDimensions[..i + 1][..i] == indexDimensions[..i];
    }
    assert indexDimensions[..|indexDimensions|] == indexDimensions;
    key := StripSpaces(result);
  }

  lemma {:induction false} StripSpacesAppend(a: string, b: string)
    ensures StripSpaces(a + b) == StripSpaces(a) + StripSpaces(b)
    decreases |a|
  {
    if a == [] {
      assert a + b == b;
    } else {
      var head := if a[0] == ' ' then [] else [a[0]];
      assert (a + b)[0] == a[0];
      assert (a + b)[1..] == a[1..] + b;
      assert StripSpaces(a + b) == head + StripSpaces(a[1..] + b);
      assert StripSpaces(a) == head + StripSpaces(a[1..]);
      StripSpacesAppend(a[1..], b);
    }
  }

  lemma {:induction false} StripSpacesKeepsSpaceFree(s: string)
    requires ' ' !in s
    ensures StripSpaces(s) == s
    decreases |s|
  {
    if s != [] {
      StripSpacesKeepsSpaceFree(s[1..]);
    }
  }

  /** The key of a longer tuple extends the key of its prefix by the new element, spaces removed. */
  lemma FileKeyAppend(dims: seq<string>, d: string)
    ensures FileKey(dims + [d]) == FileKey(dims) + StripSpaces(d)
  {
    assert (dims + [d])[..|dims|] == dims;
    StripSpacesAppend(Concat(dims), d);
  }

  /** Codes without spaces are concatenated as they are. */
  lemma {:induction false} FileKeyOfSpaceFreeCodes(dims: seq<string>)
    requires forall i :: 0 <= i < |dims| ==> ' ' !in dims[i]
    ensures FileKey(dims) == Concat(dims)
    decreases |dims|
  {
    if dims != [] {
      var init := dims[..|dims| - 1];
      FileKeyOfSpaceFreeCodes(init);
      assert dims == init + [dims[|dims| - 1]];
      FileKeyAppend(init, dims[|dims| - 1]);
      StripSpacesKeepsSpaceFree(dims[|dims| - 1]);
    }
  }

  lemma ConcatPair(a: string, b: string)
    ensures Concat([a, b]) == a + b
  {
    assert [a, b][..1] == [a];
    assert [a][..0] == [];
    assert Concat([a]) == "" + a == a;
  }

  /** The encoding has no separator, so two different tuples can share a key. */
  lemma KeysCanCollide()
    ensures ["US", "EAST"] != ["USE", "AST"]
    ensures FileKey(["US", "EAST"]) == "USEAST" == FileKey(["USE", "AST"])
  {
    assert ["US", "EAST"][0] != ["USE", "AST"][0];
    ConcatPair("US", "EAST");
    ConcatPair("USE", "AST");
    assert "US" + "EAST" == "USEAST" == "USE" + "AST";
    StripSpacesKeepsSpaceFree("USEAST");
  }

  /** The key of every tuple of a list, in order. */
  function KeysOf(tuples: seq<seq<string>>): (keys: seq<string>)
    ensures forall k :: k in keys ==> ' ' !in k
  {
    seq(|tuples|, i requires 0 <= i < |tuples| => FileKey(tuples[i]))
  }

  lemma KeysOfConcat(a: seq<seq<string>>, b: seq<seq<string>>)
    ensures KeysOf(a + b) == KeysOf(a) + KeysOf(b)
  {
    var l, r := KeysOf(a + b), KeysOf(a) + KeysOf(b);
    assert |l| == |r|;
    forall i | 0 <= i < |l|
      ensures l[i] == r[i]
    {
      if i < |a| {
        assert (a + b)[i] == a[i];
      } else {
        assert (a + b)[i] == b[i - |a|];
      }
    }
  }

  // ---------------------------------------------------------------------------
  // The key space, level by level, in the order of the nested loops

  /** The dimension lists the cross product is built from, besides regions and terms. */
  datatype Dims = Dims(families: seq<string>, offeringClasses: seq<string>, tenancies: seq<string>,
                       purchaseOptions: seq<string>, reserved: string)

  /** The dimension lists get_partition_keys uses: keyword arguments win over the maps' values. */
  function DimsOf(c: Constants, extra: ExtraArgs): Dims {
    Dims(c.supportedProductFamilies,
         GetOr(extra.offeringClasses, Values(c.offeringClassMap)),
         GetOr(extra.tenancies, Values(c.tenancyMap)),
         GetOr(extra.purchaseOptions, Values(c.purchaseOptionMap)),
         c.termTypeReserved)
  }

  /** The number of tuples one (region, term, product family) cell expands to. */
  function Weight(t: string, d: Dims): nat {
    if t == d.reserved then |d.offeringClasses| * |d.tenancies| * |d.purchaseOptions| else 1
  }

  /** The number of tuples one region expands to over the given terms. */
  function TermsWeight(terms: seq<string>, d: Dims): nat
    decreases |terms|
  {
    if terms == [] then 0 else TermsWeight(terms[..|terms| - 1], d) + |d.families| * Weight(terms[|terms| - 1], d)
  }

  function PurchaseOptionTuples(prefix: seq<string>, pos: seq<string>): (ts: seq<seq<string>>)
    ensures |ts| == |pos|
    decreases |pos|
  {
    if pos == [] then []
    else PurchaseOptionTuples(prefix, pos[..|pos| - 1]) + [prefix + [pos[|pos| - 1]]]
  }

  function TenancyTuples(prefix: seq<string>, tens: seq<string>, pos: seq<string>): (ts: seq<seq<string>>)
    ensures |ts| == |tens| * |pos|
    decreases |tens|
  {
    if tens == [] then []
    else
      var n := |tens|;
      assert (n - 1) * |pos| + |pos| == n * |pos|;
      TenancyTuples(prefix, tens[..n - 1], pos) + PurchaseOptionTuples(prefix + [tens[n - 1]], pos)
  }

  function OfferingClassTuples(prefix: seq<string>, ocs: seq<string>, tens: seq<string>, pos: seq<string>)
    : (ts: seq<seq<string>>)
    ensures |ts| == |ocs| * (|tens| * |pos|)
    decreases |ocs|
  {
    if ocs == [] then []
    else
      var n, w := |ocs|, |tens| * |pos|;
      assert (n - 1) * w + w == n * w;
      OfferingClassTuples(prefix, ocs[..n - 1], tens, pos) + TenancyTuples(prefix + [ocs[n - 1]], tens, pos)
  }

  /** The tuples of one (region, term, product family) cell: six-tuples for the reserved term, else the triple. */
  function CellTuples(r: string, t: string, pf: string, d: Dims): (ts: seq<seq<string>>)
    ensures |ts| == Weight(t, d)
  {
    if t == d.reserved then OfferingClassTuples([r, t, pf], d.offeringClasses, d.tenancies, d.purchaseOptions)
    else [[r, t, pf]]
  }

  function FamilyTuples(r: string, t: string, pfs: seq<string>, d: Dims): (ts: seq<seq<string>>)
    ensures |ts| == |pfs| * Weight(t, d)
    decreases |pfs|
  {
    if pfs == [] then []
    else
      var n, w := |pfs|, Weight(t, d);
      assert (n - 1) * w + w == n * w;
      FamilyTuples(r, t, pfs[..n - 1], d) + CellTuples(r, t, pfs[n - 1], d)
  }

  function TermTuples(r: string, terms: seq<string>, d: Dims): (ts: seq<seq<string>>)
    ensures |ts| == TermsWeight(terms, d)
    decreases |terms|
  {
    if terms == [] then []
    else TermTuples(r, terms[..|terms| - 1], d) + FamilyTuples(r, terms[|terms| - 1], d.families, d)
  }

  /** Every tuple of the key space, in the order the nested loops visit them. */
  function RegionTuples(regions: seq<string>, terms: seq<string>, d: Dims): (ts: seq<seq<string>>)
    ensures |ts| == |regions| * TermsWeight(terms, d)
    decreases |regions|
  {
    if regions == [] then []
    else
      var n, w := |regions|, TermsWeight(terms, d);
      assert (n - 1) * w + w == n * w;
      RegionTuples(regions[..n - 1], terms, d) + TermTuples(regions[n - 1], terms, d)
  }

  // ---------------------------------------------------------------------------
  // get_partition_keys

  /**
   * get_partition_keys. A given region or term is looked up in its map (a
   * missing key raises KeyError, region first); otherwise every code of the
   * map is used. Keys are appended in the order of the nested loops.
   */
  method GetPartitionKeys(c: Constants, region: Option<string>, term: Option<string>, extra: ExtraArgs)
    returns (result: Result<seq<string>, KeyError>)
    ensures Select(c.regionMap, region).Failure? ==> result == Failure(Select(c.regionMap, region).error)
    ensures Select(c.regionMap, region).Success? && Select(c.termTypeMap, term).Failure? ==>
      result == Failure(Select(c.termTypeMap, term).error)
    ensures Select(c.regionMap, region).Success? && Select(c.termTypeMap, term).Success? ==>
      result == Success(KeysOf(RegionTuples(Select(c.regionMap, region).value, Select(c.termTypeMap, term).value,
                                            DimsOf(c, extra))))
  {
    var regionCodes := Select(c.regionMap, region);
    if regionCodes.Failure? {
      return Failure(regionCodes.error);
    }
    var regions := regionCodes.value;
    var termCodes := Select(c.termTypeMap, term);
    if termCodes.Failure? {
      return Failure(termCodes.error);
    }
    var terms := termCodes.value;
    var productFamilies := c.supportedProductFamilies;
    var offeringClasses := GetOr(extra.offeringClasses, Values(c.offeringClassMap));
    var tenancies := GetOr(extra.tenancies, Values(c.tenancyMap));
    var purchaseOptions := GetOr(extra.purchaseOptions, Values(c.purchaseOptionMap));
    ghost var d := DimsOf(c, extra);
    assert d == Dims(productFamilies, offeringClasses, tenancies, purchaseOptions, c.termTypeReserved);

    var keys: seq<string> := [];
    for i := 0 to |regions|
      invariant keys == KeysOf(RegionTuples(regions[..i], terms, d))
    {
      var r := regions[i];
      ghost var beforeRegion := keys;
      for j := 0 to |terms|
        invariant keys == beforeRegion + KeysOf(TermTuples(r, terms[..j], d))
      {
        var t := terms[j];
        keys := AppendFamilyKeys(keys, r, t, productFamilies, c.termTypeReserved, offeringClasses, tenancies, purchaseOptions);
        TermStep(r, terms, d, j);
        assert productFamilies[..|productFamilies|] == productFamilies;
        Regroup(beforeRegion, KeysOf(TermTuples(r, terms[..j], d)), KeysOf(FamilyTuples(r, t, productFamilies, d)));
      }
      RegionStep(regions, terms, d, i);
    }
    assert regions[..|regions|] == regions;
    return Success(keys);
  }

  /**
   * The product-family loop of get_partition_keys for one (region, term) pair,
   * with the reserved term's three inner loops, appending the keys in loop order.
   */
  method AppendFamilyKeys(keys: seq<string>, r: string, t: string, productFamilies: seq<string>, reserved: string,
                          offeringClasses: seq<string>, tenancies: seq<string>, purchaseOptions: seq<string>)
    returns (result: seq<string>)
    ensures result == keys + KeysOf(FamilyTuples(r, t, productFamilies,
                                                 Dims(productFamilies, offeringClasses, tenancies, purchaseOptions, reserved)))
  {
    ghost var d := Dims(productFamilies, offeringClasses, tenancies, purchaseOptions, reserved);
    result := keys;
    for k := 0 to |productFamilies|
      invariant result == keys + KeysOf(FamilyTuples(r, t, productFamilies[..k], d))
    {
      var pf := productFamilies[k];
      if t == reserved {
        result := AppendReservedKeys(result, r, t, pf, offeringClasses, tenancies, purchaseOptions);
        assert CellTuples(r, t, pf, d) == OfferingClassTuples([r, t, pf], offeringClasses, tenancies, purchaseOptions);
      } else {
        var key := CreateFileKey([r, t, pf]);
        assert CellTuples(r, t, pf, d) == [[r, t, pf]];
        assert KeysOf([[r, t, pf]]) == [key];
        result := result + [key];
      }
      FamilyStep(r, t, productFamilies, d, k);
      Regroup(keys, KeysOf(FamilyTuples(r, t, productFamilies[..k], d)), KeysOf(CellTuples(r, t, pf, d)));
    }
    assert productFamilies[..|productFamilies|] == productFamilies;
  }

  /**
   * The three innermost loops of get_partition_keys for one reserved
   * (region, term, product family) cell: offering class, tenancy and purchase
   * option, appending one key per six-tuple.
   */
  method AppendReservedKeys(keys: seq<string>, r: string, t: string, pf: string,
                            offeringClasses: seq<string>, tenancies: seq<string>, purchaseOptions: seq<string>)
    returns (result: seq<string>)
    ensures result == keys + KeysOf(OfferingClassTuples([r, t, pf], offeringClasses, tenancies, purchaseOptions))
  {
    result := keys;
    for a := 0 to |offeringClasses|
      invariant result == keys + KeysOf(OfferingClassTuples([r, t, pf], offeringClasses[..a], tenancies, purchaseOptions))
    {
      var oc := offeringClasses[a];
      ghost var beforeClass := result;
      for b := 0 to |tenancies|
        invariant result == beforeClass + KeysOf(TenancyTuples([r, t, pf] + [oc], tenancies[..b], purchaseOptions))
      {
        var ten := tenancies[b];
        ghost var beforeTenancy := result;
        for e := 0 to |purchaseOptions|
          invariant result == beforeTenancy + KeysOf(PurchaseOptionTuples([r, t, pf] + [oc] + [ten], purchaseOptions[..e]))
        {
          var po := purchaseOptions[e];
          var key := CreateFileKey([r, t, pf, oc, ten, po]);
          PurchaseOptionStep([r, t, pf] + [oc] + [ten], purchaseOptions, e);
          Regroup(beforeTenancy, KeysOf(PurchaseOptionTuples([r, t, pf] + [oc] + [ten], purchaseOptions[..e])),
                  [key]);
          assert [r, t, pf] + [oc] + [ten] + [po] == [r, t, pf, oc, ten, po];
          result := result + [key];
        }
        TenancyStep([r, t, pf] + [oc], tenancies, purchaseOptions, b);
        Regroup(beforeClass, KeysOf(TenancyTuples([r, t, pf] + [oc], tenancies[..b], purchaseOptions)),
                KeysOf(PurchaseOptionTuples([r, t, pf] + [oc] + [ten], purchaseOptions[..|purchaseOptions|])));
      }
      OfferingClassStep([r, t, pf], offeringClasses, tenancies, purchaseOptions, a);
      Regroup(keys, KeysOf(OfferingClassTuples([r, t, pf], offeringClasses[..a], tenancies, purchaseOptions)),
              KeysOf(TenancyTuples([r, t, pf] + [oc], tenancies[..|tenancies|], purchaseOptions)));
    }
    assert offeringClasses[..|offeringClasses|] == offeringClasses;
  }

  /**
   * Regrouping of appended key lists. Kept as a lemma: stated inline as an
   * assertion, the loops of GetPartitionKeys and AppendReservedKeys exceed
   * the solver's resource limit.
   */
  lemma Regroup(before: seq<string>, done: seq<string>, step: seq<string>)
    ensures (before + done) + step == before + (done + step)
  {
  }

  lemma PurchaseOptionStep(prefix: seq<string>, pos: seq<string>, e: nat)
    requires e < |pos|
    ensures KeysOf(PurchaseOptionTuples(prefix, pos[..e + 1]))
         == KeysOf(PurchaseOptionTuples(prefix, pos[..e])) + [FileKey(prefix + [pos[e]])]
  {
    assert pos[..e + 1][..e] == pos[..e];
    KeysOfConcat(PurchaseOptionTuples(prefix, pos[..e]), [prefix + [pos[e]]]);
  }

  lemma TenancyStep(prefix: seq<string>, tens: seq<string>, pos: seq<string>, b: nat)
    requires b < |tens|
    ensures KeysOf(TenancyTuples(prefix, tens[..b + 1], pos))
         == KeysOf(TenancyTuples(prefix, tens[..b], pos)) + KeysOf(PurchaseOptionTuples(prefix + [tens[b]], pos[..|pos|]))
  {
    assert tens[..b + 1][..b] == tens[..b];
    assert pos[..|pos|] == pos;
    KeysOfConcat(TenancyTuples(prefix, tens[..b], pos), PurchaseOptionTuples(prefix + [tens[b]], pos));
  }

  lemma OfferingClassStep(prefix: seq<string>, ocs: seq<string>, tens: seq<string>, pos: seq<string>, a: nat)
    requires a < |ocs|
    ensures KeysOf(OfferingClassTuples(prefix, ocs[..a + 1], tens, pos))
         == KeysOf(OfferingClassTuples(prefix, ocs[..a], tens, pos)) + KeysOf(TenancyTuples(prefix + [ocs[a]], tens[..|tens|], pos))
  {
    assert ocs[..a + 1][..a] == ocs[..a];
    assert tens[..|tens|] == tens;
    KeysOfConcat(OfferingClassTuples(prefix, ocs[..a], tens, pos), TenancyTuples(prefix + [ocs[a]], tens, pos));
  }

  lemma FamilyStep(r: string, t: string, pfs: seq<string>, d: Dims, k: nat)
    requires k < |pfs|
    ensures KeysOf(FamilyTuples(r, t, pfs[..k + 1], d))
         == KeysOf(FamilyTuples(r, t, pfs[..k], d)) + KeysOf(CellTuples(r, t, pfs[k], d))
  {
    assert pfs[..k + 1][..k] == pfs[..k];
    KeysOfConcat(FamilyTuples(r, t, pfs[..k], d), CellTuples(r, t, pfs[k], d));
  }

  lemma TermStep(r: string, terms: seq<string>, d: Dims, j: nat)
    requires j < |terms|
    ensures KeysOf(TermTuples(r, terms[..j + 1], d))
         == KeysOf(TermTuples(r, terms[..j], d)) + KeysOf(FamilyTuples(r, terms[j], d.families[..|d.families|], d))
  {
    assert terms[..j + 1][..j] == terms[..j];
    assert d.families[..|d.families|] == d.families;
    KeysOfConcat(TermTuples(r, terms[..j], d), FamilyTuples(r, terms[j], d.families, d));
  }

  lemma RegionStep(regions: seq<string>, terms: seq<string>, d: Dims, i: nat)
    requires i < |regions|
    ensures KeysOf(RegionTuples(regions[..i + 1], terms, d))
         == KeysOf(RegionTuples(regions[..i], terms, d)) + KeysOf(TermTuples(regions[i], terms[..|terms|], d))
  {
    assert regions[..i + 1][..i] == regions[..i];
    assert terms[..|terms|] == terms;
    KeysOfConcat(RegionTuples(regions[..i], terms, d), TermTuples(regions[i], terms, d));
  }

  // ---------------------------------------------------------------------------
  // Properties of the key space

  /** What follows the (region, term, product family) head of a tuple: nothing, or for the reserved term three more codes. */
  predicate CellShape(tup: seq<string>, d: Dims)
    requires |tup| >= 3
  {
    if tup[1] == d.reserved then
      |tup| == 6 && tup[3] in d.offeringClasses && tup[4] in d.tenancies && tup[5] in d.purchaseOptions
    else |tup| == 3
  }

  /** The tuples the partition keys are made from: every combination of the selected codes, and nothing else. */
  predicate InKeySpace(tup: seq<string>, regions: seq<string>, terms: seq<string>, d: Dims) {
    |tup| >= 3 && tup[0] in regions && tup[1] in terms && tup[2] in d.families && CellShape(tup, d)
  }

  lemma {:induction false} PurchaseOptionMember(prefix: seq<string>, pos: seq<string>, tup: seq<string>)
    ensures tup in PurchaseOptionTuples(prefix, pos) <==>
      |tup| == |prefix| + 1 && tup[..|prefix|] == prefix && tup[|prefix|] in pos
    decreases |pos|
  {
    if pos != [] {
      var init, last := pos[..|pos| - 1], pos[|pos| - 1];
      PurchaseOptionMember(prefix, init, tup);
      assert pos == init + [last];
      if |tup| == |prefix| + 1 && tup[..|prefix|] == prefix {
        assert tup == prefix + [tup[|prefix|]];
      }
      assert (prefix + [last])[..|prefix|] == prefix;
    }
  }

  lemma {:induction false} TenancyMember(prefix: seq<string>, tens: seq<string>, pos: seq<string>, tup: seq<string>)
    ensures tup in TenancyTuples(prefix, tens, pos) <==>
      |tup| == |prefix| + 2 && tup[..|prefix|] == prefix && tup[|prefix|] in tens && tup[|prefix| + 1] in pos
    decreases |tens|
  {
    if tens != [] {
      var init, last := tens[..|tens| - 1], tens[|tens| - 1];
      TenancyMember(prefix, init, pos, tup);
      PurchaseOptionMember(prefix + [last], pos, tup);
      assert tens == init + [last];
      if |tup| == |prefix| + 2 && tup[..|prefix|] == prefix {
        assert tup[..|prefix| + 1] == prefix + [tup[|prefix|]];
      }
      if |tup| == |prefix| + 2 && tup[..|prefix| + 1] == prefix + [last] {
        assert tup[..|prefix|] == tup[..|prefix| + 1][..|prefix|];
      }
    }
  }

  lemma {:induction false} OfferingClassMember(prefix: seq<string>, ocs: seq<string>, tens: seq<string>,
                                               pos: seq<string>, tup: seq<string>)
    ensures tup in OfferingClassTuples(prefix, ocs, tens, pos) <==>
      |tup| == |prefix| + 3 && tup[..|prefix|] == prefix &&
      tup[|prefix|] in ocs && tup[|prefix| + 1] in tens && tup[|prefix| + 2] in pos
    decreases |ocs|
  {
    if ocs != [] {
      var init, last := ocs[..|ocs| - 1], ocs[|ocs| - 1];
      OfferingClassMember(prefix, init, tens, pos, tup);
      TenancyMember(prefix + [last], tens, pos, tup);
      assert ocs == init + [last];
      if |tup| == |prefix| + 3 && tup[..|prefix|] == prefix {
        assert tup[..|prefix| + 1] == prefix + [tup[|prefix|]];
      }
      if |tup| == |prefix| + 3 && tup[..|prefix| + 1] == prefix + [last] {
        assert tup[..|prefix|] == tup[..|prefix| + 1][..|prefix|];
      }
    }
  }

  lemma CellMember(r: string, t: string, pf: string, d: Dims, tup: seq<string>)
    ensures tup in CellTuples(r, t, pf, d) <==>
      |tup| >= 3 && tup[0] == r && tup[1] == t && tup[2] == pf && CellShape(tup, d)
  {
    if t == d.reserved {
      OfferingClassMember([r, t, pf], d.offeringClasses, d.tenancies, d.purchaseOptions, tup);
      if |tup| >= 3 && tup[0] == r && tup[1] == t && tup[2] == pf {
        assert tup[..3] == [r, t, pf];
      }
    } else if |tup| == 3 && tup[0] == r && tup[1] == t && tup[2] == pf {
      assert tup == [r, t, pf];
    }
  }

  lemma {:induction false} FamilyMember(r: string, t: string, pfs: seq<string>, d: Dims, tup: seq<string>)
    ensures tup in FamilyTuples(r, t, pfs, d) <==>
      |tup| >= 3 && tup[0] == r && tup[1] == t && tup[2] in pfs && CellShape(tup, d)
    decreases |pfs|
  {
    if pfs != [] {
      var init, last := pfs[..|pfs| - 1], pfs[|pfs| - 1];
      FamilyMember(r, t, init, d, tup);
      CellMember(r, t, last, d, tup);
      assert pfs == init + [last];
    }
  }

  lemma {:induction false} TermMember(r: string, terms: seq<string>, d: Dims, tup: seq<string>)
    ensures tup in TermTuples(r, terms, d) <==>
      |tup| >= 3 && tup[0] == r && tup[1] in terms && tup[2] in d.families && CellShape(tup, d)
    decreases |terms|
  {
    if terms != [] {
      var init, last := terms[..|terms| - 1], terms[|terms| - 1];
      TermMember(r, init, d, tup);
      FamilyMember(r, last, d.families, d, tup);
      assert terms == init + [last];
    }
  }

  /**
   * The tuples behind the partition keys are exactly the combinations of the
   * selected regions, terms and product families, six-tuples for the reserved
   * term and triples for every other term.
   */
  lemma {:induction false} KeySpaceMembership(regions: seq<string>, terms: seq<string>, d: Dims, tup: seq<string>)
    ensures tup in RegionTuples(regions, terms, d) <==> InKeySpace(tup, regions, terms, d)
    decreases |regions|
  {
    if regions != [] {
      var init, last := regions[..|regions| - 1], regions[|regions| - 1];
      KeySpaceMembership(init, terms, d, tup);
      TermMember(last, terms, d, tup);
      assert regions == init + [last];
    }
  }

  /** Every tuple of the key space has its key among the partition keys. */
  lemma PartitionKeysCoverKeySpace(regions: seq<string>, terms: seq<string>, d: Dims, tup: seq<string>)
    requires InKeySpace(tup, regions, terms, d)
    ensures FileKey(tup) in KeysOf(RegionTuples(regions, terms, d))
  {
    KeySpaceMembership(regions, terms, d, tup);
    var ts := RegionTuples(regions, terms, d);
    var i :| 0 <= i < |ts| && ts[i] == tup;
    assert KeysOf(ts)[i] == FileKey(tup);
  }

  /** Every partition key is the key of some tuple of the key space. */
  lemma PartitionKeysComeFromKeySpace(regions: seq<string>, terms: seq<string>, d: Dims, k: string)
    requires k in KeysOf(RegionTuples(regions, terms, d))
    ensures exists tup :: InKeySpace(tup, regions, terms, d) && k == FileKey(tup)
  {
    var ts := RegionTuples(regions, terms, d);
    var i :| 0 <= i < |ts| && KeysOf(ts)[i] == k;
    KeySpaceMembership(regions, terms, d, ts[i]);
  }

  lemma {:induction false} TermsWeightWithoutReserved(terms: seq<string>, d: Dims)
    requires d.reserved !in terms
    ensures TermsWeight(terms, d) == |terms| * |d.families|
    decreases |terms|
  {
    if terms != [] {
      var n := |terms|;
      TermsWeightWithoutReserved(terms[..n - 1], d);
      assert terms[n - 1] in terms;
      assert (n - 1) * |d.families| + |d.families| == n * |d.families|;
    }
  }

  /**
   * The number of partition keys for a given term: regions times product
   * families, times offering classes, tenancies and purchase options when the
   * term is the reserved one.
   */
  lemma KeyCountForOneTerm(regions: seq<string>, t: string, d: Dims)
    ensures |KeysOf(RegionTuples(regions, [t], d))| ==
      |regions| * (|d.families| * (if t == d.reserved then |d.offeringClasses| * |d.tenancies| * |d.purchaseOptions| else 1))
  {
    assert [t][..0] == [];
    assert TermsWeight([t], d) == |d.families| * Weight(t, d);
  }

  /** Without the reserved term among the terms, the key count is regions times terms times product families. */
  lemma KeyCountWithoutReserved(regions: seq<string>, terms: seq<string>, d: Dims)
    requires d.reserved !in terms
    ensures |KeysOf(RegionTuples(regions, terms, d))| == |regions| * (|terms| * |d.families|)
  {
    TermsWeightWithoutReserved(terms, d);
  }

  /**
   * The key count of a get_partition_keys call that succeeds, with the term
   * given: one code per given region or term, every code of the map otherwise.
   */
  lemma QueryKeyCount(c: Constants, region: Option<string>, term: Option<string>, extra: ExtraArgs)
    requires Select(c.regionMap, region).Success? && Select(c.termTypeMap, term).Success? && Truthy(term)
    ensures var d := DimsOf(c, extra);
      var t := Select(c.termTypeMap, term).value[0];
      |KeysOf(RegionTuples(Select(c.regionMap, region).value, [t], d))| ==
        (if Truthy(region) then 1 else |c.regionMap.entries|) * (|c.supportedProductFamilies| *
        (if t == c.termTypeReserved then |d.offeringClasses| * |d.tenancies| * |d.purchaseOptions| else 1))
  {
    KeyCountForOneTerm(Select(c.regionMap, region).value, Select(c.termTypeMap, term).value[0], DimsOf(c, extra));
  }
}
