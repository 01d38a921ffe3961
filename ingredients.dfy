/**
 * The ingredient list's rules from the home screen
 * (`handleAddIngredient` and `handleRemoveIngredient`), as functions of the
 * list and the typed text. The screen class in module HomeScreen follows
 * them step by step.
 */
module IngredientList {
  import opened Text

  /** `MAX_INGREDIENTS`: the most entries the list may hold. */
  const MaxIngredients := 100

  /** `inputText.trim().toLowerCase()`: empty exactly for all-space input,
      never longer than the input, and otherwise an ingredient. */
  function Normalize(raw: string): (r: string)
    ensures r == [] <==> AllSpace(raw, IsJsSpace)
    ensures |r| <= |raw|
    ensures r != [] ==> IsIngredient(r)
  {
    var t := JsTrim(raw);
    LowerKeepsTrim(t);
    ToLower(t)
  }

  /** An entry as the list stores it: non-empty, trimmed and lower-case. */
  predicate IsIngredient(s: string) {
    s != [] && IsTrimmed(s, IsJsSpace) && IsLowerCase(s)
  }

  predicate NoDuplicates(xs: seq<string>) {
    forall i, j :: 0 <= i < j < |xs| ==> xs[i] != xs[j]
  }

  /** The list invariant: at most `MaxIngredients` entries, no two equal,
      every one an ingredient. */
  predicate WellFormed(xs: seq<string>) {
    && |xs| <= MaxIngredients
    && NoDuplicates(xs)
    && forall i :: 0 <= i < |xs| ==> IsIngredient(xs[i])
  }

  /** An ingredient is its own normal form. */
  lemma {:induction false} NormalizeIngredient(s: string)
    requires IsIngredient(s)
    ensures Normalize(s) == s
  {
    assert LeadingSpaces(s, IsJsSpace) == 0;
    assert s[0..] == s;
    assert SpanEnd(s, 0, |s|, IsJsSpace) == |s|;
    assert JsTrim(s) == s;
  }

  /** Normalising twice is normalising once. */
  lemma NormalizeIdempotent(raw: string)
    ensures Normalize(Normalize(raw)) == Normalize(raw)
  {
    if Normalize(raw) != [] {
      NormalizeIngredient(Normalize(raw));
    }
  }

  /** Why `handleAddIngredient` turns the typed text away. */
  datatype AddRejection = InvalidInput | MaximumIngredients | DuplicateIngredient

  datatype AddOutcome = Added(list: seq<string>) | Rejected(reason: AddRejection)

  /** `handleAddIngredient` on the list: blank input is refused first, then a
      full list, then an entry already present; otherwise the normalised entry
      is appended. */
  function TryAdd(list: seq<string>, raw: string): (r: AddOutcome)
    ensures r == Rejected(InvalidInput) <==> AllSpace(raw, IsJsSpace)
    ensures r == Rejected(MaximumIngredients)
            <==> !AllSpace(raw, IsJsSpace) && |list| >= MaxIngredients
    ensures r == Rejected(DuplicateIngredient)
            <==> !AllSpace(raw, IsJsSpace) && |list| < MaxIngredients && Normalize(raw) in list
    ensures r.Added? ==> r.list == list + [Normalize(raw)]
  {
    var entry := Normalize(raw);
    if entry == [] then Rejected(InvalidInput)
    else if |list| >= MaxIngredients then Rejected(MaximumIngredients)
    else if entry in list then Rejected(DuplicateIngredient)
    else Added(list + [entry])
  }

  /** Adding keeps a well-formed list well-formed. */
  lemma TryAddWellFormed(list: seq<string>, raw: string)
    requires WellFormed(list)
    ensures TryAdd(list, raw).Added? ==> WellFormed(TryAdd(list, raw).list)
  {
  }

  /** `list.filter(item => item !== x)`: the entries other than `x`, and no
      more of them; a list without `x` comes back unchanged. */
  function Remove(list: seq<string>, x: string): (r: seq<string>)
    ensures forall y :: y in r <==> y in list && y != x
    ensures |r| <= |list|
    ensures x !in list ==> r == list
  {
    if list == [] then []
    else
      assert list == [list[0]] + list[1..];
      (if list[0] == x then [] else [list[0]]) + Remove(list[1..], x)
  }

  /** Every entry other than `x` is kept as often as it occurs, and `x` not at all. */
  lemma {:induction false} RemoveCounts(list: seq<string>, x: string)
    ensures multiset(Remove(list, x)) == multiset(list)[x := 0]
  {
    if list != [] {
      var rest := list[1..];
      RemoveCounts(rest, x);
      assert multiset(list) == multiset([list[0]]) + multiset(rest) by {
        assert list == [list[0]] + rest;
      }
      assert Remove(list, x) == (if list[0] == x then [] else [list[0]]) + Remove(rest, x);
    }
  }

  /** Removing keeps a well-formed list well-formed. */
  lemma {:induction false} RemoveWellFormed(list: seq<string>, x: string)
    requires WellFormed(list)
    ensures WellFormed(Remove(list, x))
  {
    var r := Remove(list, x);
    if x in list {
      var k :| 0 <= k < |list| && list[k] == x;
      RemoveAt(list, k);
      assert forall i :: 0 <= i < |r| ==> r[i] == list[if i < k then i else i + 1];
    }
  }

  /** Filtering distributes over concatenation, so it keeps the relative order
      of the entries it keeps. */
  lemma {:induction false} RemoveConcat(a: seq<string>, b: seq<string>, x: string)
    ensures Remove(a + b, x) == Remove(a, x) + Remove(b, x)
    decreases |a|
  {
    if a != [] {
      RemoveConcat(a[1..], b, x);
      assert (a + b)[1..] == a[1..] + b;
    } else {
      assert a + b == b;
    }
  }

  /** In a list without duplicates, removing an entry cuts out exactly its
      one position. */
  lemma {:induction false} RemoveAt(list: seq<string>, k: nat)
    requires NoDuplicates(list) && k < |list|
    ensures Remove(list, list[k]) == list[..k] + list[k + 1..]
    decreases k
  {
    var x := list[k];
    var tail := list[1..];
    if k == 0 {
      forall i | 0 <= i < |tail| ensures tail[i] != x {
        assert tail[i] == list[i + 1];
      }
      assert x !in tail;
      assert Remove(list, x) == Remove(tail, x);
      assert list[..0] + list[1..] == tail;
    } else {
      forall i, j | 0 <= i < j < |tail| ensures tail[i] != tail[j] {
        assert tail[i] == list[i + 1] && tail[j] == list[j + 1];
      }
      assert tail[k - 1] == x;
      assert list[0] != x by { assert 0 < k; }
      assert Remove(list, x) == [list[0]] + Remove(tail, x);
      RemoveAt(tail, k - 1);
      assert tail[..k - 1] == list[1..k];
      assert tail[k..] == list[k + 1..];
      assert [list[0]] + list[1..k] == list[..k];
    }
  }

  /** Normalises every input. */
  function NormalizeAll(raws: seq<string>): seq<string> {
    if raws == [] then [] else [Normalize(raws[0])] + NormalizeAll(raws[1..])
  }

  /** The list after adding each input in turn; a rejected input leaves it as it is. */
  function AddEach(list: seq<string>, raws: seq<string>): seq<string>
    decreases |raws|
  {
    if raws == [] then list
    else
      var next := match TryAdd(list, raws[0])
        case Added(l) => l
        case Rejected(_) => list;
      AddEach(next, raws[1..])
  }

  /** Adding inputs that are non-blank, new and pairwise distinct once
      normalised, no more than the cap allows, appends all of them in the
      order given. */
  lemma {:induction false} AddEachDistinct(list: seq<string>, raws: seq<string>)
    requires |list| + |raws| <= MaxIngredients
    requires forall i :: 0 <= i < |raws| ==> !AllSpace(raws[i], IsJsSpace)
    requires forall i :: 0 <= i < |raws| ==> Normalize(raws[i]) !in list
    requires forall i, j :: 0 <= i < j < |raws| ==> Normalize(raws[i]) != Normalize(raws[j])
    ensures AddEach(list, raws) == list + NormalizeAll(raws)
    decreases |raws|
  {
    if raws != [] {
      var entry := Normalize(raws[0]);
      var tail := raws[1..];
      AddFirst(list, raws);
      DistinctTail(list, raws);
      AddEachDistinct(list + [entry], tail);
      assert NormalizeAll(raws) == [entry] + NormalizeAll(tail);
      Reassociate(list, [entry], NormalizeAll(tail));
    }
  }

  /** Concatenation regroups; stated apart, in an empty context, because
      the same fact asserted inside `AddEachDistinct` costs more than that
      proof's whole budget. */
  lemma Reassociate<T>(a: seq<T>, b: seq<T>, c: seq<T>)
    ensures (a + b) + c == a + (b + c)
  {
  }

  /** An admissible first input is appended, and the rest are added to the longer list. */
  lemma AddFirst(list: seq<string>, raws: seq<string>)
    requires raws != [] && |list| < MaxIngredients
    requires !AllSpace(raws[0], IsJsSpace) && Normalize(raws[0]) !in list
    ensures AddEach(list, raws) == AddEach(list + [Normalize(raws[0])], raws[1..])
  {
    assert TryAdd(list, raws[0]) == Added(list + [Normalize(raws[0])]);
  }

  /** The inputs after the first stay admissible once the first is appended. */
  lemma DistinctTail(list: seq<string>, raws: seq<string>)
    requires raws != []
    requires forall i :: 0 <= i < |raws| ==> !AllSpace(raws[i], IsJsSpace)
    requires forall i :: 0 <= i < |raws| ==> Normalize(raws[i]) !in list
    requires forall i, j :: 0 <= i < j < |raws| ==> Normalize(raws[i]) != Normalize(raws[j])
    ensures var tail, next := raws[1..], list + [Normalize(raws[0])];
            && (forall i :: 0 <= i < |tail| ==> !AllSpace(tail[i], IsJsSpace))
            && (forall i :: 0 <= i < |tail| ==> Normalize(tail[i]) !in next)
            && (forall i, j :: 0 <= i < j < |tail| ==> Normalize(tail[i]) != Normalize(tail[j]))
  {
    var tail, next := raws[1..], list + [Normalize(raws[0])];
    forall i | 0 <= i < |tail| ensures !AllSpace(tail[i], IsJsSpace) && Normalize(tail[i]) !in next {
      assert tail[i] == raws[i + 1];
    }
    forall i, j | 0 <= i < j < |tail| ensures Normalize(tail[i]) != Normalize(tail[j]) {
      assert tail[i] == raws[i + 1] && tail[j] == raws[j + 1];
    }
  }

  /** Retyping an entry with other spacing and case is a duplicate:
      "  Chicken " after "chicken". */
  lemma ChickenTwice()
    ensures TryAdd(["chicken"], "  Chicken ") == Rejected(DuplicateIngredient)
  {
    SpacedChicken();
    assert ["chicken"][0] == "chicken";
  }

  lemma SpacedChicken()
    ensures Normalize("  Chicken ") == "chicken"
  {
    TrimmedChicken();
    LowerChicken();
  }

  lemma TrimmedChicken()
    ensures JsTrim("  Chicken ") == "Chicken"
  {
    var typed := "  Chicken ";
    assert IsJsSpace(typed[0]) && IsJsSpace(typed[1]) && !IsJsSpace(typed[2]);
    assert LeadingSpaces(typed, IsJsSpace) == 2;
    assert IsJsSpace(typed[9]) && !IsJsSpace(typed[8]);
    assert SpanEnd(typed, 2, |typed|, IsJsSpace) == 9;
    assert typed[2..9] == "Chicken";
  }

  lemma LowerChicken()
    ensures ToLower("Chicken") == "chicken"
  {
    var r := ToLower("Chicken");
    assert LowerChar('C') == 'c';
    assert forall i :: 1 <= i < 7 ==> LowerChar("Chicken"[i]) == "Chicken"[i];
    assert forall i :: 0 <= i < 7 ==> r[i] == "chicken"[i];
  }

  /** Typing back an entry exactly as the list shows it is a duplicate while
      the list has room. */
  lemma RetypedEntryIsDuplicate(list: seq<string>, k: nat)
    requires WellFormed(list) && k < |list| && |list| < MaxIngredients
    ensures TryAdd(list, list[k]) == Rejected(DuplicateIngredient)
  {
    NormalizeIngredient(list[k]);
  }
}
