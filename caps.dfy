/**
 * The caps carousel on the home page: pick the caps category from the category list,
 * load its products, drop the incomplete ones and the repeated ids (keeping the first),
 * and size the slider to the number of products.
 */
module Caps {
  import opened Wrappers
  import opened Sequences
  import opened Text
  import opened Prices

  const InvalidCategories: string := "Invalid categories data received"
  const CategoryNotFound: string := "Caps category not found"
  const FetchFailed: string := "Failed to fetch caps"

  datatype Category = Category(id: int, name: string)

  /**
   * A product of the response. A null entry is represented by a product with no
   * fields, which the validity test rejects just as it rejects null.
   */
  datatype Cap = Cap(id: Option<int>, name: Option<string>, price: Option<PriceInput>)

  /** The products response: an array, an object whose `data` may be an array, or nothing. */
  datatype ProductsResponse = List(items: seq<Cap>) | Object(data: Option<seq<Cap>>) | Nothing

  // ---------------------------------------------------------------------------
  // Category selection

  predicate IsCapsCategory(c: Category)
  {
    Contains(ToLower(c.name), "cap")
  }

  /** `categories.find(cat => cat.name.toLowerCase().includes('cap'))`, as an index. */
  function FindCapsCategory(cats: seq<Category>): (r: Option<nat>)
    ensures r.Some? ==> r.value < |cats| && IsCapsCategory(cats[r.value])
    ensures r.Some? ==> forall j :: 0 <= j < r.value ==> !IsCapsCategory(cats[j])
    ensures r.None? <==> forall j :: 0 <= j < |cats| ==> !IsCapsCategory(cats[j])
  {
    if cats == [] then None
    else if IsCapsCategory(cats[0]) then Some(0)
    else match FindCapsCategory(cats[1..])
      case None => None
      case Some(i) => Some(i + 1)
  }

  lemma CapsCategoryExample()
    ensures FindCapsCategory([Category(1, "Hoodies"), Category(7, "Snapback CAPS")]) == Some(1)
  {
    var hoodies := Category(1, "Hoodies");
    var caps := Category(7, "Snapback CAPS");
    assert ToLower(caps.name)[9..12] == "cap";
    assert OccursAt(ToLower(caps.name), "cap", 9);
    assert IsCapsCategory(caps);
    var h := ToLower(hoodies.name);
    forall i | 0 <= i && i + 3 <= |h| ensures !OccursAt(h, "cap", i) {
      assert h[i] != 'c';
      assert h[i..i + 3][0] == h[i];
    }
    assert !IsCapsCategory(hoodies);
  }

  // ---------------------------------------------------------------------------
  // Normalisation and validity

  /** The array itself, else `.data` when it is an array, else the empty list. */
  function Normalise(r: ProductsResponse): seq<Cap>
  {
    match r
    case List(items) => items
    case Object(data) => data.GetOr([])
    case Nothing => []
  }

  /** A truthy price: a non-zero number or a non-empty string. */
  predicate TruthyPrice(p: Option<PriceInput>)
  {
    p.Some? && (match p.value
                case Numeric(n) => n != 0
                case Text(s) => s != "")
  }

  /** `product && product.id && product.name && product.price` */
  predicate ValidCap(c: Cap)
  {
    c.id.Some? && c.id.value != 0 && c.name.Some? && c.name.value != "" && TruthyPrice(c.price)
  }

  function ValidCaps(s: seq<Cap>): seq<Cap>
  {
    Filter(s, ValidCap)
  }

  // ---------------------------------------------------------------------------
  // De-duplication by id

  function IdsOf(s: seq<Cap>): set<Option<int>>
  {
    set x | x in s :: x.id
  }

  /** Keep each element whose id has not been seen yet, adding it to `seen`. */
  function UniqueFrom(s: seq<Cap>, seen: set<Option<int>>): seq<Cap>
  {
    if s == [] then []
    else if s[0].id in seen then UniqueFrom(s[1..], seen)
    else [s[0]] + UniqueFrom(s[1..], seen + {s[0].id})
  }

  function Unique(s: seq<Cap>): seq<Cap>
  {
    UniqueFrom(s, {})
  }

  predicate DistinctIds(s: seq<Cap>)
  {
    forall i, j :: 0 <= i < j < |s| ==> s[i].id != s[j].id
  }

  /** `x` is the first element of `s` carrying its id. */
  predicate FirstWithId(s: seq<Cap>, x: Cap)
  {
    exists i :: 0 <= i < |s| && s[i] == x && forall j :: 0 <= j < i ==> s[j].id != x.id
  }

  lemma IdsOfCons(x: Cap, rest: seq<Cap>)
    ensures IdsOf([x] + rest) == {x.id} + IdsOf(rest)
  {
    forall y | y in [x] + rest ensures y == x || y in rest { }
  }

  lemma {:induction false} UniqueFromIds(s: seq<Cap>, seen: set<Option<int>>)
    ensures DistinctIds(UniqueFrom(s, seen))
    ensures IdsOf(UniqueFrom(s, seen)) == IdsOf(s) - seen
  {
    if s == [] {
      assert IdsOf(s) == {};
    } else {
      var rest := s[1..];
      var x := s[0];
      assert s == [x] + rest;
      IdsOfCons(x, rest);
      if x.id in seen {
        UniqueFromIds(rest, seen);
      } else {
        UniqueFromIds(rest, seen + {x.id});
        var tail := UniqueFrom(rest, seen + {x.id});
        var out := [x] + tail;
        IdsOfCons(x, tail);
        forall i, j | 0 <= i < j < |out| ensures out[i].id != out[j].id {
          assert out[j] == tail[j - 1];
          assert out[j].id in IdsOf(tail);
          if i > 0 {
            assert out[i] == tail[i - 1];
          }
        }
      }
    }
  }

  lemma {:induction false} UniqueFromSubsequence(s: seq<Cap>, seen: set<Option<int>>)
    ensures Subsequence(UniqueFrom(s, seen), s)
  {
    if s != [] {
      if s[0].id in seen {
        UniqueFromSubsequence(s[1..], seen);
      } else {
        UniqueFromSubsequence(s[1..], seen + {s[0].id});
        var out := UniqueFrom(s, seen);
        assert out[0] == s[0] && out[1..] == UniqueFrom(s[1..], seen + {s[0].id});
      }
    }
  }

  /** An element found at `i` in `s[1..]`, first with its id there, is first in `s` when `s[0]` has another id. */
  lemma FirstWithIdShift(s: seq<Cap>, y: Cap)
    requires s != [] && FirstWithId(s[1..], y) && s[0].id != y.id
    ensures FirstWithId(s, y)
  {
    var rest := s[1..];
    var i :| 0 <= i < |rest| && rest[i] == y && forall j :: 0 <= j < i ==> rest[j].id != y.id;
    assert s[i + 1] == y;
    forall j | 0 <= j < i + 1 ensures s[j].id != y.id {
      if j > 0 {
        assert s[j] == rest[j - 1];
      }
    }
  }

  lemma {:induction false} UniqueFromFirst(s: seq<Cap>, seen: set<Option<int>>)
    ensures forall x :: x in UniqueFrom(s, seen) ==> FirstWithId(s, x)
  {
    if s != [] {
      var x := s[0];
      var seen' := if x.id in seen then seen else seen + {x.id};
      UniqueFromFirst(s[1..], seen');
      UniqueFromIds(s[1..], seen');
      var tail := UniqueFrom(s[1..], seen');
      forall y | y in tail ensures FirstWithId(s, y) {
        assert y.id in IdsOf(tail);
        FirstWithIdShift(s, y);
      }
      if x.id !in seen {
        assert s[0] == x;
        assert FirstWithId(s, x);
      }
    }
  }

  /**
   * The de-duplicated list has pairwise distinct ids, keeps every id of the input,
   * holds only first occurrences and preserves the input's order.
   */
  lemma UniqueRule(s: seq<Cap>)
    ensures DistinctIds(Unique(s))
    ensures IdsOf(Unique(s)) == IdsOf(s)
    ensures Subsequence(Unique(s), s)
    ensures forall x :: x in Unique(s) ==> FirstWithId(s, x)
  {
    UniqueFromIds(s, {});
    UniqueFromSubsequence(s, {});
    UniqueFromFirst(s, {});
  }

  /** A list whose ids are already distinct comes back unchanged. */
  lemma {:induction false} UniqueOfDistinct(s: seq<Cap>, seen: set<Option<int>>)
    requires DistinctIds(s)
    requires IdsOf(s) !! seen
    ensures UniqueFrom(s, seen) == s
  {
    if s != [] {
      assert s[0] in s;
      assert IdsOf(s[1..]) !! (seen + {s[0].id}) by {
        forall y | y in s[1..] ensures y.id != s[0].id && y.id !in seen {
          var k :| 0 <= k < |s[1..]| && s[1..][k] == y;
          assert s[k + 1] == y;
        }
      }
      UniqueOfDistinct(s[1..], seen + {s[0].id});
    }
  }

  /** `uniqueCaps`: a filter that remembers the ids it has let through in a set. */
  method Dedup(s: seq<Cap>) returns (out: seq<Cap>)
    ensures out == Unique(s)
    ensures DistinctIds(out) && Subsequence(out, s) && IdsOf(out) == IdsOf(s)
  {
    var seen: set<Option<int>> := {};
    out := [];
    var i := 0;
    while i < |s|
      invariant 0 <= i <= |s|
      invariant Unique(s) == out + UniqueFrom(s[i..], seen)
    {
      assert s[i..][1..] == s[i + 1..];
      if s[i].id !in seen {
        seen := seen + {s[i].id};
        out := out + [s[i]];
      }
      i := i + 1;
    }
    assert UniqueFrom(s[i..], seen) == [];
    UniqueRule(s);
  }

  /** Every product shown is valid, its id is unique, and it is the first valid one with that id. */
  lemma ShownCapsRule(r: ProductsResponse)
    ensures forall x :: x in Unique(ValidCaps(Normalise(r))) ==> ValidCap(x) && x in Normalise(r)
    ensures DistinctIds(Unique(ValidCaps(Normalise(r))))
    ensures Subsequence(Unique(ValidCaps(Normalise(r))), ValidCaps(Normalise(r)))
    ensures forall x :: x in Unique(ValidCaps(Normalise(r))) ==> FirstWithId(ValidCaps(Normalise(r)), x)
    ensures r.Nothing? || r == Object(None) ==> Unique(ValidCaps(Normalise(r))) == []
  {
    var v := ValidCaps(Normalise(r));
    UniqueRule(v);
    forall x | x in Unique(v) ensures ValidCap(x) && x in Normalise(r) {
      var i :| 0 <= i < |v| && v[i] == x && forall j :: 0 <= j < i ==> v[j].id != x.id;
      assert v[i] in v;
    }
  }

  // ---------------------------------------------------------------------------
  // Slider settings

  function Min(a: int, b: int): int { if a <= b then a else b }

  /** `Math.min(4, caps.length)` */
  function SlidesToShow(n: nat): nat { Min(4, n) }

  /** `caps.length > 4` */
  predicate Infinite(n: nat) { n > 4 }

  lemma SliderRule(n: nat)
    ensures SlidesToShow(n) <= 4 && SlidesToShow(n) <= n
    ensures Infinite(n) <==> SlidesToShow(n) < n
    ensures !Infinite(n) ==> SlidesToShow(n) == n
    ensures Min(3, n) <= SlidesToShow(n) && Min(2, n) <= Min(3, n)
  {
  }

  class CapsCarousel {
    var caps: seq<Cap>
    var loading: bool
    var error: Option<string>

    constructor ()
      ensures caps == [] && loading && error == None
    {
      caps, loading, error := [], true, None;
    }

    /**
     * `fetchCaps`. `categories` is the category service's outcome (`Ok(None)` for an
     * answer that is not an array); `products` is the products service's outcome for
     * the category requested, which is returned in `requested`.
     */
    method FetchCaps(categories: Result<Option<seq<Category>>, Option<string>>,
                     products: Result<ProductsResponse, Option<string>>)
      returns (requested: Option<int>)
      modifies this
      ensures !loading
      ensures categories.Err? ==>
                requested == None && caps == [] && error == Some(OrDefault(categories.error, FetchFailed))
      ensures categories == Ok(None) ==> requested == None && caps == [] && error == Some(InvalidCategories)
      ensures categories.Ok? && categories.value.Some? ==>
                var cats := categories.value.value;
                var found := FindCapsCategory(cats);
                && (found.None? ==> requested == None && caps == [] && error == Some(CategoryNotFound))
                && (found.Some? ==> requested == Some(cats[found.value].id))
                && (found.Some? && products.Err? ==>
                      caps == [] && error == Some(OrDefault(products.error, FetchFailed)))
                && (found.Some? && products.Ok? ==>
                      caps == Unique(ValidCaps(Normalise(products.value))) && error == None)
    {
      loading, error := true, None;
      requested := None;
      if categories.Err? {
        error := Some(OrDefault(categories.error, FetchFailed));
        caps := [];
      } else if categories.value.None? {
        error := Some(InvalidCategories);
        caps := [];
      } else {
        var cats := categories.value.value;
        var found := FindCapsCategory(cats);
        if found.None? {
          error := Some(CategoryNotFound);
          caps := [];
        } else {
          requested := Some(cats[found.value].id);
          if products.Err? {
            error := Some(OrDefault(products.error, FetchFailed));
            caps := [];
          } else {
            var valid := ValidCaps(Normalise(products.value));
            caps := Dedup(valid);
          }
        }
      }
      loading := false;
    }
  }
}
