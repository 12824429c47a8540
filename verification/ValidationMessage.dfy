/**
 The text of a validation error: a function of the reported fields alone, whatever order the map that
 holds them is iterated in.
 */
module ValidationMessage {
  import opened Text
  import opened Listings

  const VALIDATION_FAILED := "opnsense validation failed"

  // ---- The order of sort.Strings ----

  /** Go's `<` on strings. */
  predicate Before(a: string, b: string) {
    b != "" && (a == "" || a[0] < b[0] || (a[0] == b[0] && Before(a[1..], b[1..])))
  }

  lemma {:induction false} BeforeTransitive(a: string, b: string, c: string)
    requires Before(a, b) && Before(b, c)
    ensures Before(a, c)
  {
    if a != "" && a[0] == b[0] && b[0] == c[0] {
      BeforeTransitive(a[1..], b[1..], c[1..]);
    }
  }

  lemma {:induction false} BeforeTotal(a: string, b: string)
    ensures Before(a, b) || a == b || Before(b, a)
  {
    if a != "" && b != "" && a[0] == b[0] {
      BeforeTotal(a[1..], b[1..]);
      assert a == [a[0]] + a[1..] && b == [b[0]] + b[1..];
    }
  }

  lemma {:induction false} BeforeIrreflexive(a: string)
    ensures !Before(a, a)
  {
    if a != "" {
      BeforeIrreflexive(a[1..]);
    }
  }

  /** At `i` the two first differ, and `a` has the smaller character there or has ended. */
  predicate FirstDifference(a: string, b: string, i: nat) {
    && i <= |a| && i < |b| && (forall p | 0 <= p < i :: a[p] == b[p])
    && (i == |a| || a[i] < b[i])
  }

  /** The order of strings: a proper prefix comes first, and else the characters at the first difference decide. */
  lemma {:induction false} BeforeIff(a: string, b: string)
    ensures Before(a, b) <==> exists i: nat :: FirstDifference(a, b, i)
  {
    if a == "" || b == "" || a[0] != b[0] {
      if Before(a, b) {
        assert FirstDifference(a, b, 0);
      }
    } else {
      BeforeIff(a[1..], b[1..]);
      if i: nat :| FirstDifference(a[1..], b[1..], i) {
        assert forall p | 0 < p < i + 1 :: a[p] == a[1..][p - 1] == b[1..][p - 1] == b[p];
        assert FirstDifference(a, b, i + 1);
      }
      if i: nat :| FirstDifference(a, b, i) {
        assert FirstDifference(a[1..], b[1..], i - 1);
      }
    }
  }

  ghost predicate Ascending(s: seq<string>) {
    forall i, j | 0 <= i < j < |s| :: Before(s[i], s[j])
  }

  function Insert(x: string, s: seq<string>): seq<string> {
    if s == [] then [x]
    else if Before(x, s[0]) then [x] + s
    else [s[0]] + Insert(x, s[1..])
  }

  /** sort.Strings */
  function SortStrings(s: seq<string>): seq<string> {
    if s == [] then [] else Insert(s[0], SortStrings(s[1..]))
  }

  lemma {:induction false} InsertMembers(x: string, s: seq<string>)
    ensures forall y :: y in Insert(x, s) <==> y == x || y in s
  {
    if s != [] && !Before(x, s[0]) {
      InsertMembers(x, s[1..]);
      assert s == [s[0]] + s[1..];
    }
  }

  lemma {:induction false} InsertAscends(x: string, s: seq<string>)
    requires Ascending(s) && x !in s
    ensures Ascending(Insert(x, s))
  {
    if s != [] {
      if Before(x, s[0]) {
        forall j | 0 < j < |s|
          ensures Before(x, s[j])
        {
          BeforeTransitive(x, s[0], s[j]);
        }
      } else {
        BeforeTotal(x, s[0]);
        InsertAscends(x, s[1..]);
        InsertMembers(x, s[1..]);
        forall y | y in Insert(x, s[1..])
          ensures Before(s[0], y)
        {
        }
      }
    }
  }

  lemma {:induction false} SortAscends(s: seq<string>, elements: set<string>)
    requires NoRepeats(s) && Lists(s, elements)
    ensures Ascending(SortStrings(s)) && Lists(SortStrings(s), elements)
  {
    if s != [] {
      SortAscends(s[1..], elements - {s[0]});
      InsertAscends(s[0], SortStrings(s[1..]));
      InsertMembers(s[0], SortStrings(s[1..]));
    }
  }

  lemma AscendingHasNoRepeats(s: seq<string>)
    requires Ascending(s)
    ensures NoRepeats(s)
  {
    forall i, j | 0 <= i < j < |s|
      ensures s[i] != s[j]
    {
      BeforeIrreflexive(s[i]);
    }
  }

  /** A set of strings has only one ascending listing. */
  lemma {:induction false} AscendingIsUnique(s: seq<string>, t: seq<string>, elements: set<string>)
    requires Ascending(s) && Ascending(t) && Lists(s, elements) && Lists(t, elements)
    ensures s == t
  {
    assert (s != [] ==> s[0] in elements) && (t != [] ==> t[0] in elements);
    if s != [] && t != [] {
      AscendingHasNoRepeats(s);
      AscendingHasNoRepeats(t);
      assert s[0] in t && t[0] in s;
      if s[0] != t[0] {
        assert Before(s[0], t[0]) && Before(t[0], s[0]);
        BeforeTransitive(s[0], t[0], s[0]);
        BeforeIrreflexive(s[0]);
      }
      AscendingIsUnique(s[1..], t[1..], elements - {s[0]});
    }
  }

  /** The members of a set in the order in which sort.Strings leaves them. */
  ghost function SortedListing(elements: set<string>): (s: seq<string>)
    ensures Ascending(s) && Lists(s, elements)
  {
    var s := Listing(elements);
    SortAscends(s, elements);
    SortStrings(s)
  }

  // ---- The message ----

  function Parts(keys: seq<string>, fieldErrors: map<string, string>): seq<string>
    requires forall k | k in keys :: k in fieldErrors
  {
    if keys == [] then [] else [keys[0] + ": " + fieldErrors[keys[0]]] + Parts(keys[1..], fieldErrors)
  }

  lemma {:induction false} PartsConcat(keys: seq<string>, key: string, fieldErrors: map<string, string>)
    requires key in fieldErrors && forall k | k in keys :: k in fieldErrors
    ensures Parts(keys + [key], fieldErrors) == Parts(keys, fieldErrors) + [key + ": " + fieldErrors[key]]
  {
    if keys == [] {
      assert keys + [key] == [key];
    } else {
      assert (keys + [key])[1..] == keys[1..] + [key];
      PartsConcat(keys[1..], key, fieldErrors);
    }
  }

  /** The text for `fieldErrors`: each field once, in ascending order. It depends on nothing else. */
  ghost function Message(fieldErrors: map<string, string>): string {
    if fieldErrors == map[] then VALIDATION_FAILED
    else VALIDATION_FAILED + ": " + Join(Parts(SortedListing(fieldErrors.Keys), fieldErrors), ", ")
  }

  /** Without fields there is nothing but the sentinel's text. */
  lemma MessageOfNone()
    ensures Message(map[]) == "opnsense validation failed"
  {
  }

  lemma SmallestComesFirst(key: string, elements: set<string>)
    requires key in elements && forall other | other in elements && other != key :: Before(key, other)
    ensures SortedListing(elements) == [key] + SortedListing(elements - {key})
  {
    PrependedAscends(key, SortedListing(elements - {key}), elements - {key});
    assert elements == (elements - {key}) + {key};
    AscendingIsUnique(SortedListing(elements), [key] + SortedListing(elements - {key}), elements);
  }

  lemma PrependedAscends(key: string, s: seq<string>, elements: set<string>)
    requires Ascending(s) && Lists(s, elements) && forall other | other in elements :: Before(key, other)
    ensures Ascending([key] + s) && Lists([key] + s, elements + {key})
  {
    forall i, j | 0 <= i < j < |[key] + s|
      ensures Before(([key] + s)[i], ([key] + s)[j])
    {
      assert s[j - 1] in elements;
    }
  }

  lemma {:induction false} PartsOfSame(keys: seq<string>, m: map<string, string>, n: map<string, string>)
    requires forall k | k in keys :: k in m && k in n && m[k] == n[k]
    ensures Parts(keys, m) == Parts(keys, n)
  {
    if keys != [] {
      PartsOfSame(keys[1..], m, n);
    }
  }

  lemma ListingIsEmptyIff(elements: set<string>)
    ensures SortedListing(elements) == [] <==> elements == {}
  {
    var s := SortedListing(elements);
    if elements != {} {
      var x :| x in elements;
      assert x in s;
    }
    if s != [] {
      assert s[0] in elements;
    }
  }

  /** What follows the sentinel's text for some fields. */
  ghost function Fields(fieldErrors: map<string, string>): string {
    Join(Parts(SortedListing(fieldErrors.Keys), fieldErrors), ", ")
  }

  lemma FieldsFromSmallest(fieldErrors: map<string, string>, key: string)
    requires key in fieldErrors && forall other | other in fieldErrors && other != key :: Before(key, other)
    ensures
      var others := fieldErrors - {key};
      Fields(fieldErrors) == key + ": " + fieldErrors[key] + if others == map[] then "" else ", " + Fields(others)
  {
    var others := fieldErrors - {key};
    SmallestComesFirst(key, fieldErrors.Keys);
    assert fieldErrors.Keys - {key} == others.Keys;
    ListingIsEmptyIff(others.Keys);
    assert others == map[] <==> others.Keys == {};
    TextFromFirst(key, SortedListing(others.Keys), fieldErrors, others);
  }

  /**
   The whole text, from the smallest field on: that field with its error, and then either nothing, or a comma and what
   the text for the other fields has after the sentinel's.
   */
  lemma MessageFromSmallest(fieldErrors: map<string, string>, key: string)
    requires key in fieldErrors && forall other | other in fieldErrors && other != key :: Before(key, other)
    ensures
      var head, others := "opnsense validation failed: ", fieldErrors - {key};
      if others == map[] then Message(fieldErrors) == head + (key + ": " + fieldErrors[key])
      else
        && head <= Message(others)
        && Message(fieldErrors) == head + (key + ": " + fieldErrors[key] + (", " + Message(others)[|head|..]))
  {
    HeadIs();
    MessageWithHead(fieldErrors, key, "opnsense validation failed: ");
  }

  lemma HeadIs()
    ensures VALIDATION_FAILED + ": " == "opnsense validation failed: "
  {
  }

  lemma MessageWithHead(fieldErrors: map<string, string>, key: string, head: string)
    requires key in fieldErrors && forall other | other in fieldErrors && other != key :: Before(key, other)
    requires head == VALIDATION_FAILED + ": "
    ensures
      var others := fieldErrors - {key};
      if others == map[] then Message(fieldErrors) == head + (key + ": " + fieldErrors[key])
      else
        && head <= Message(others)
        && Message(fieldErrors) == head + (key + ": " + fieldErrors[key] + (", " + Message(others)[|head|..]))
  {
    var others := fieldErrors - {key};
    FieldsFromSmallest(fieldErrors, key);
    MessageIs(fieldErrors, head);
    if others != map[] {
      MessageIs(others, head);
      TailIs(head, Fields(others));
    } else {
      assert key + ": " + fieldErrors[key] + "" == key + ": " + fieldErrors[key];
    }
  }

  lemma TailIs(head: string, tail: string)
    ensures head <= head + tail && (head + tail)[|head|..] == tail
  {
  }

  lemma MessageIs(fieldErrors: map<string, string>, head: string)
    requires head == VALIDATION_FAILED + ": " && fieldErrors != map[]
    ensures Message(fieldErrors) == head + Fields(fieldErrors)
  {
  }

  lemma TextFromFirst(key: string, keys: seq<string>, m: map<string, string>, n: map<string, string>)
    requires key in m && forall k | k in keys :: k in m && k in n && m[k] == n[k]
    ensures
      Join(Parts([key] + keys, m), ", ") ==
        key + ": " + m[key] + if keys == [] then "" else ", " + Join(Parts(keys, n), ", ")
  {
    assert ([key] + keys)[1..] == keys;
    PartsOfSame(keys, m, n);
    assert Parts([key] + keys, m) == [key + ": " + m[key]] + Parts(keys, n);
  }

  /** Collects the keys in whatever order the map is iterated, and sorts them. */
  method SortedKeys(fieldErrors: map<string, string>) returns (keys: seq<string>)
    ensures keys == SortedListing(fieldErrors.Keys)
  {
    keys := [];
    var rest := fieldErrors.Keys;
    while rest != {}
      invariant NoRepeats(keys) && rest <= fieldErrors.Keys
      invariant Lists(keys, fieldErrors.Keys - rest)
      decreases rest
    {
      var key :| key in rest;
      keys := keys + [key];
      rest := rest - {key};
    }
    SortAscends(keys, fieldErrors.Keys);
    keys := SortStrings(keys);
    AscendingIsUnique(keys, SortedListing(fieldErrors.Keys), fieldErrors.Keys);
  }

  method FormatParts(keys: seq<string>, fieldErrors: map<string, string>) returns (parts: seq<string>)
    requires forall k | k in keys :: k in fieldErrors
    ensures parts == Parts(keys, fieldErrors)
  {
    parts := [];
    for i := 0 to |keys|
      invariant parts == Parts(keys[..i], fieldErrors)
    {
      assert keys[..i + 1] == keys[..i] + [keys[i]];
      PartsConcat(keys[..i], keys[i], fieldErrors);
      parts := parts + [keys[i] + ": " + fieldErrors[keys[i]]];
    }
    assert keys[..|keys|] == keys;
  }

  /** ValidationError.Error; the iteration order of the map is left open, and the text is the same for all of them. */
  method ErrorText(fieldErrors: map<string, string>) returns (message: string)
    ensures message == Message(fieldErrors)
  {
    if fieldErrors == map[] {
      return VALIDATION_FAILED;
    }
    var keys := SortedKeys(fieldErrors);
    var parts := FormatParts(keys, fieldErrors);
    message := VALIDATION_FAILED + ": " + Join(parts, ", ");
  }
}
