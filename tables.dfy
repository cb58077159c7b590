/** Helpers over table contents that several SQL statements share: `ORDER BY id`, the row filter of a `DELETE ... WHERE`, and Python's `str.strip()`. */
module Tables {
  import opened Records

  predicate StrictlyIncreasing(s: seq<int>) {
    forall i, j :: 0 <= i < j < |s| ==> s[i] < s[j]
  }

  /** Transaction ids grow along the table, as the ids handed out by a SERIAL column do. */
  predicate IdsIncreasing(ts: seq<Transaction>) {
    forall i, j :: 0 <= i < j < |ts| ==> ts[i].id < ts[j].id
  }

  /** Every non-empty finite set of ids has a least element. */
  lemma {:induction false} MinExists(s: set<int>)
    ensures s == {} || exists m :: m in s && forall x :: x in s ==> m <= x
    decreases s
  {
    if forall y :: y !in s {
      assert s == {};
    } else {
      var y :| y in s;
      MinExists(s - {y});
      var least := y;
      if s - {y} != {} {
        var m :| m in s - {y} && forall x :: x in s - {y} ==> m <= x;
        least := if y < m then y else m;
      }
      forall x | x in s ensures least <= x {
        if x != y { assert x in s - {y}; }
      }
      assert least in s;
    }
  }

  function Min(s: set<int>): (m: int)
    requires s != {}
    ensures m in s && forall x :: x in s ==> m <= x
  {
    MinExists(s);
    var m :| m in s && forall x :: x in s ==> m <= x; m
  }

  lemma CardinalityWithout(s: set<int>, m: int)
    requires m in s
    ensures |s - {m}| == |s| - 1
  {
    assert s == (s - {m}) + {m};
  }

  /** The keys of a table in the order `ORDER BY id` returns them. */
  function SortedIds(s: set<int>): (r: seq<int>)
    ensures |r| == |s|
    ensures forall x :: x in r <==> x in s
    ensures StrictlyIncreasing(r)
    decreases s
  {
    if s == {} then []
    else
      var m := Min(s);
      CardinalityWithout(s, m);
      var rest := SortedIds(s - {m});
      var r := [m] + rest;
      assert forall j :: 0 <= j < |rest| ==> m < rest[j];
      r
  }

  /** The rows that `DELETE FROM transactions WHERE material_id = materialId` leaves, in table order. */
  function WithoutMaterial(ts: seq<Transaction>, materialId: int): (r: seq<Transaction>)
    ensures |r| <= |ts|
    ensures forall i :: 0 <= i < |r| ==> r[i].materialId != materialId && r[i] in ts
    ensures forall t :: t in ts && t.materialId != materialId ==> t in r
    ensures IdsIncreasing(ts) ==> IdsIncreasing(r)
  {
    if ts == [] then []
    else if ts[0].materialId == materialId then WithoutMaterial(ts[1..], materialId)
    else [ts[0]] + WithoutMaterial(ts[1..], materialId)
  }

  /** The value a `VARCHAR(width)` column stores for `s`: `s` itself when it fits; when it is
      longer, PostgreSQL cuts it to `width` characters if everything past the width is spaces, and
      refuses it ("value too long") otherwise. */
  function FitColumn(s: string, width: nat): (r: Option<string>)
    ensures r.Some? <==> forall i :: width <= i < |s| ==> s[i] == ' '
    ensures r.Some? ==> |r.value| == (if |s| <= width then |s| else width) && r.value == s[..|r.value|]
  {
    if |s| <= width then Some(s)
    else if forall i :: width <= i < |s| ==> s[i] == ' ' then Some(s[..width])
    else None
  }

  /** The characters Python's `str.isspace()` accepts, which `str.strip()` removes. */
  predicate IsSpace(c: char) {
    || '\t' <= c <= '\r'
    || '\U{1c}' <= c <= '\U{1f}'
    || c == ' '
    || c == '\U{85}'
    || c == '\U{a0}'
    || c == '\U{1680}'
    || '\U{2000}' <= c <= '\U{200a}'
    || c == '\U{2028}'
    || c == '\U{2029}'
    || c == '\U{202f}'
    || c == '\U{205f}'
    || c == '\U{3000}'
  }

  predicate IsBlank(s: string) {
    forall i :: 0 <= i < |s| ==> IsSpace(s[i])
  }

  function TrimLeft(s: string): (r: string)
    ensures |r| <= |s| && r == s[|s| - |r|..]
    ensures forall i :: 0 <= i < |s| - |r| ==> IsSpace(s[i])
    ensures r == [] || !IsSpace(r[0])
  {
    if |s| > 0 && IsSpace(s[0]) then TrimLeft(s[1..]) else s
  }

  function TrimRight(s: string): (r: string)
    ensures |r| <= |s| && r == s[..|r|]
    ensures forall i :: |r| <= i < |s| ==> IsSpace(s[i])
    ensures r == [] || !IsSpace(r[|r| - 1])
  {
    if |s| > 0 && IsSpace(s[|s| - 1]) then TrimRight(s[..|s| - 1]) else s
  }

  /** Python's `str.strip()` without arguments: `s` with its leading and trailing whitespace cut off.
      It is empty exactly when `s` is blank. */
  function Strip(s: string): (r: string)
    ensures |r| <= |s|
    ensures r == [] <==> IsBlank(s)
  {
    TrimRight(TrimLeft(s))
  }

}
