/**
 * The search box of the products and stock pages: keep the products whose
 * lower-cased code or lower-cased name contains the lower-cased query.
 */
module ProductSearch {
  import opened ProductActions

  /** Upper-case letters that `toLowerCase` folds here: A-Z and the Latin-1 capitals U+00C0-U+00DE except U+00D7. */
  predicate IsUpper(c: char)
  {
    ('A' <= c <= 'Z') || (0xC0 <= c as int <= 0xDE && c as int != 0xD7)
  }

  function LowerChar(c: char): (r: char)
    ensures !IsUpper(r)
    ensures IsUpper(c) ==> r as int == c as int + 32
    ensures !IsUpper(c) ==> r == c
  {
    if IsUpper(c) then (c as int + 32) as char else c
  }

  /** `s.toLowerCase()`, one character at a time. */
  function ToLower(s: string): (r: string)
    ensures |r| == |s|
    ensures forall i :: 0 <= i < |s| ==> r[i] == LowerChar(s[i])
  {
    if s == [] then [] else [LowerChar(s[0])] + ToLower(s[1..])
  }

  /** Lower-casing twice is lower-casing once. */
  lemma ToLowerIdempotent(s: string)
    ensures ToLower(ToLower(s)) == ToLower(s)
  {
  }

  /** `needle` occurs in `hay` starting at index `i`. */
  predicate OccursAt(hay: string, needle: string, i: int)
  {
    0 <= i && i + |needle| <= |hay| && hay[i..i + |needle|] == needle
  }

  /** `hay.includes(needle)`. */
  function Contains(hay: string, needle: string): (r: bool)
    ensures r <==> exists i :: OccursAt(hay, needle, i)
    decreases |hay|
  {
    if |needle| > |hay| then false
    else if hay[..|needle|] == needle then
      assert OccursAt(hay, needle, 0);
      true
    else
      var rest := Contains(hay[1..], needle);
      assert forall i :: OccursAt(hay[1..], needle, i) <==> OccursAt(hay, needle, i + 1) by {
        forall i ensures OccursAt(hay[1..], needle, i) <==> OccursAt(hay, needle, i + 1) {
          if 0 <= i && i + |needle| <= |hay| - 1 {
            assert hay[1..][i..i + |needle|] == hay[i + 1..i + 1 + |needle|];
          }
        }
      }
      assert !OccursAt(hay, needle, 0);
      assert (exists i :: OccursAt(hay, needle, i)) ==> exists i :: OccursAt(hay[1..], needle, i) by {
        if exists i :: OccursAt(hay, needle, i) {
          var i :| OccursAt(hay, needle, i);
          assert OccursAt(hay[1..], needle, i - 1);
        }
      }
      rest
  }

  /** The search predicate applied to one product. */
  predicate Matches(row: ProductRow, query: string)
  {
    var q := ToLower(query);
    Contains(ToLower(row.product.code), q) || Contains(ToLower(row.product.name), q)
  }

  /** `products.filter(p => ...)`: the matching products in their original order. */
  function Search(products: seq<ProductRow>, query: string): (r: seq<ProductRow>)
    ensures |r| <= |products|
    ensures forall x :: x in r <==> x in products && Matches(x, query)
  {
    if products == [] then []
    else (if Matches(products[0], query) then [products[0]] else []) + Search(products[1..], query)
  }

  /** Filtering keeps the order of the list: the result of a concatenation is the concatenation of the results. */
  lemma {:induction false} SearchConcat(a: seq<ProductRow>, b: seq<ProductRow>, query: string)
    ensures Search(a + b, query) == Search(a, query) + Search(b, query)
  {
    if a != [] {
      assert (a + b)[1..] == a[1..] + b;
      SearchConcat(a[1..], b, query);
    } else {
      assert a + b == b;
    }
  }

  /** The empty query matches every product, so the whole list is kept. */
  lemma {:induction false} EmptyQueryKeepsAll(products: seq<ProductRow>)
    ensures Search(products, "") == products
  {
    if products != [] {
      assert OccursAt(ToLower(products[0].product.code), "", 0);
      EmptyQueryKeepsAll(products[1..]);
    }
  }

  /** The query's case does not matter: searching for it or for its lower-case form gives the same list. */
  lemma {:induction false} SearchIgnoresQueryCase(products: seq<ProductRow>, query: string)
    ensures Search(products, query) == Search(products, ToLower(query))
  {
    ToLowerIdempotent(query);
    if products != [] {
      SearchIgnoresQueryCase(products[1..], query);
    }
  }

  /** Filtering a filtered list again with the same query changes nothing. */
  lemma {:induction false} SearchIdempotent(products: seq<ProductRow>, query: string)
    ensures Search(Search(products, query), query) == Search(products, query)
  {
    if products != [] {
      var head := if Matches(products[0], query) then [products[0]] else [];
      SearchConcat(head, Search(products[1..], query), query);
      SearchIdempotent(products[1..], query);
      if head != [] {
        assert head[1..] == [];
      }
    }
  }
}
