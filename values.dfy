/** Field values of a composer state and the natural-language list joiner. */
module Values {
  import opened Strings

  datatype Option<+T> = None | Some(value: T)

  /** A field holds one string or, for a multi-select field, a list of strings. */
  datatype Val = Str(s: string) | List(items: seq<string>)

  /** `state.fields`: field name to value; names the composer does not know are allowed. */
  type Fields = map<string, Val>

  /**
   * JavaScript truthiness of `fields[name]`: a missing key and the empty
   * string are falsy, every list (even `[]`) is truthy.
   */
  predicate Present(fields: Fields, name: string)
    ensures Present(fields, name) <==> name in fields && fields[name] != Str("")
  {
    name in fields && (fields[name].List? || fields[name].s != "")
  }

  /**
   * `nlJoin(arr)` on a list: `[]` gives "", `[x]` gives `x`, and longer lists
   * give all but the last item joined by ", ", then " and ", then the last.
   */
  function NlJoin(arr: seq<string>): (r: string)
    ensures |arr| == 0 ==> r == ""
    ensures |arr| == 1 ==> r == arr[0]
  {
    if |arr| <= 1 then (if |arr| == 0 then "" else arr[0])
    else Join(arr[..|arr| - 1], ", ") + " and " + arr[|arr| - 1]
  }

  /** `nlJoin(v)` on any value: a string is returned unchanged. */
  function NlJoinValue(v: Val): (r: string)
    ensures v.Str? ==> r == v.s
    ensures v.List? ==> r == NlJoin(v.items)
  {
    match v
    case Str(s) => s
    case List(xs) => NlJoin(xs)
  }

  /**
   * An independent reading of the joiner, item by item from the front:
   * "a and b" for two items, "a, " followed by the rest otherwise.
   */
  function NlJoinRef(arr: seq<string>): string
    requires |arr| >= 2
    decreases |arr|
  {
    if |arr| == 2 then arr[0] + " and " + arr[1]
    else arr[0] + ", " + NlJoinRef(arr[1..])
  }

  /** For two or more items `nlJoin` agrees with the front-to-back reading. */
  lemma {:induction false} NlJoinMatchesReference(arr: seq<string>)
    requires |arr| >= 2
    ensures NlJoin(arr) == NlJoinRef(arr)
    decreases |arr|
  {
    var n := |arr|;
    if n == 2 {
      assert Join(arr[..1], ", ") == arr[0];
    } else {
      NlJoinMatchesReference(arr[1..]);
      assert arr[..n - 1][1..] == arr[1..][..n - 2];
      assert Join(arr[..n - 1], ", ") == arr[0] + ", " + Join(arr[1..][..n - 2], ", ");
    }
  }

  /** For two or more items the result ends with " and " and the last item. */
  lemma NlJoinEndsWithLast(arr: seq<string>)
    requires |arr| >= 2
    ensures EndsWith(NlJoin(arr), " and " + arr[|arr| - 1])
  {
    var last := " and " + arr[|arr| - 1];
    var r := NlJoin(arr);
    assert r == Join(arr[..|arr| - 1], ", ") + last;
    assert r[|r| - |last|..] == last;
  }

  /** The examples of the comment above `nlJoin`, with the empty and one-item cases. */
  lemma NlJoinExamples()
    ensures NlJoin([]) == ""
    ensures NlJoin(["a"]) == "a"
    ensures NlJoin(["a", "b"]) == "a and b"
    ensures NlJoin(["a", "b", "c"]) == "a, b and c"
  {
    NlJoinTwoItems();
    NlJoinThreeItems();
  }

  lemma NlJoinTwoItems()
    ensures NlJoin(["a", "b"]) == "a and b"
  {
    NlJoinMatchesReference(["a", "b"]);
  }

  lemma NlJoinThreeItems()
    ensures NlJoin(["a", "b", "c"]) == "a, b and c"
  {
    NlJoinMatchesReference(["a", "b", "c"]);
    assert ["a", "b", "c"][1..] == ["b", "c"];
    assert NlJoinRef(["b", "c"]) == "b and c";
  }
}
