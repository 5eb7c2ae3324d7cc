/** The collection-to-string joiner `joinToString` of function.kt.

The Kotlin function takes a collection of arbitrary elements and appends each one
to a StringBuilder with its `toString`; here the elements are taken as already
converted to text, so a collection is a `seq<string>`.

Kotlin's default and named parameters map onto Dafny's default parameter values
and named arguments: `JoinToString(c)`, `JoinToString(c, " - ")`,
`JoinToString(c, prefix := "{", postfix := "}")` and the positional call
`JoinToString(c, "{", "}")` bind their arguments exactly as the Kotlin calls do.
 */
module Joiner {

  /** Reference definition: the elements in order, with `separator` between each
      pair of consecutive elements and nowhere else. */
  function Joined(items: seq<string>, separator: string): string
  {
    if |items| == 0 then ""
    else if |items| == 1 then items[0]
    else items[0] + separator + Joined(items[1..], separator)
  }

  /** Sum of the lengths of the elements. */
  function TotalLength(items: seq<string>): nat
  {
    if |items| == 0 then 0 else |items[0]| + TotalLength(items[1..])
  }

  /** Where element `i` starts inside `Joined(items, separator)`: every element
      before it, each followed by one separator. */
  function Offset(items: seq<string>, separator: string, i: nat): nat
    requires i <= |items|
  {
    TotalLength(items[..i]) + i * |separator|
  }

  /** Appending one more element to a non-empty collection adds one separator
      and then that element at the end. */
  lemma {:induction false} JoinedAppend(items: seq<string>, x: string, separator: string)
    requires |items| > 0
    ensures Joined(items + [x], separator) == Joined(items, separator) + separator + x
    decreases |items|
  {
    var extended := items + [x];
    if |items| == 1 {
      assert extended[1..] == [x];
    } else {
      assert extended[1..] == items[1..] + [x];
      JoinedAppend(items[1..], x, separator);
      assert Joined(extended, separator)
          == items[0] + separator + (Joined(items[1..], separator) + separator + x);
    }
  }

  /** The length of the joined body: all elements plus one separator fewer than
      there are elements. */
  lemma {:induction false} JoinedLength(items: seq<string>, separator: string)
    ensures |Joined(items, separator)|
         == TotalLength(items) + (if |items| > 0 then (|items| - 1) * |separator| else 0)
    decreases |items|
  {
    if |items| > 1 {
      JoinedLength(items[1..], separator);
    } else if |items| == 1 {
      assert TotalLength(items[1..]) == 0;
    }
  }

  /** Element `i` sits at `Offset(items, separator, i)` inside the joined body, and
      (for every element but the first) is immediately preceded by a separator. */
  lemma {:induction false} JoinedPlacement(items: seq<string>, separator: string, i: nat)
    requires i < |items|
    ensures Offset(items, separator, i) + |items[i]| <= |Joined(items, separator)|
    ensures Joined(items, separator)[Offset(items, separator, i)..Offset(items, separator, i) + |items[i]|]
         == items[i]
    ensures i > 0 ==> |separator| <= Offset(items, separator, i)
    ensures i > 0 ==>
      Joined(items, separator)[Offset(items, separator, i) - |separator|..Offset(items, separator, i)]
        == separator
    decreases |items|
  {
    var body := Joined(items, separator);
    if i == 0 {
      assert items[..0] == [];
      assert Offset(items, separator, 0) == 0;
      if |items| > 1 {
        assert body == items[0] + (separator + Joined(items[1..], separator));
      }
    } else {
      var rest := items[1..];
      var head := items[0] + separator;
      assert body == head + Joined(rest, separator);
      JoinedPlacement(rest, separator, i - 1);
      assert items[..i][1..] == rest[..i - 1];
      assert TotalLength(items[..i]) == |items[0]| + TotalLength(rest[..i - 1]);
      var o := Offset(items, separator, i);
      var o' := Offset(rest, separator, i - 1);
      assert o == |head| + o';
      assert rest[i - 1] == items[i];
      assert body[o..o + |items[i]|] == Joined(rest, separator)[o'..o' + |items[i]|];
      if i == 1 {
        assert o' == 0 by { assert rest[..0] == []; }
        assert body[o - |separator|..o] == head[|items[0]|..];
      } else {
        assert body[o - |separator|..o] == Joined(rest, separator)[o' - |separator|..o'];
      }
    }
  }

  /** Contents of the StringBuilder after the loop of `joinToString` has visited
      every element of `visited`: it starts as `prefix`, and the element at index
      `index` is appended after a separator when `index > 0`. */
  function BuilderAfter(prefix: string, visited: seq<string>, separator: string): (r: string)
    ensures r == prefix + Joined(visited, separator)
    decreases |visited|
  {
    if |visited| == 0 then prefix
    else
      var index := |visited| - 1;
      var element := visited[index];
      var before := BuilderAfter(prefix, visited[..index], separator);
      assert visited == visited[..index] + [element];
      if index > 0 then
        JoinedAppend(visited[..index], element, separator);
        before + separator + element
      else
        before + element
  }

  /** Default values of the three text parameters of `joinToString`. */
  const DefaultSeparator: string := ", "
  const DefaultPrefix: string := "["
  const DefaultPostfix: string := "]"

  /** `joinToString`: the builder after the loop, followed by `postfix`. */
  function JoinToString(
    collection: seq<string>,
    separator: string := DefaultSeparator,
    prefix: string := DefaultPrefix,
    postfix: string := DefaultPostfix
  ): (r: string)
    ensures r == prefix + Joined(collection, separator) + postfix
    ensures |collection| == 0 ==> r == prefix + postfix
    ensures |collection| == 1 ==> r == prefix + collection[0] + postfix
    ensures |prefix| + |postfix| <= |r|
    ensures r[..|prefix|] == prefix
    ensures r[|r| - |postfix|..] == postfix
    ensures |r| == |prefix| + |postfix| + TotalLength(collection)
                   + (if |collection| > 0 then (|collection| - 1) * |separator| else 0)
  {
    JoinedLength(collection, separator);
    var r := BuilderAfter(prefix, collection, separator) + postfix;
    assert r == prefix + (Joined(collection, separator) + postfix);
    r
  }

  /** Elements appear in collection order: element `i` of the collection sits in
      the result right after the prefix and the `i` elements and separators before
      it, and every element but the first is preceded by a separator. */
  lemma ElementsInOrder(
    collection: seq<string>, separator: string, prefix: string, postfix: string, i: nat)
    requires i < |collection|
    ensures var r := JoinToString(collection, separator, prefix, postfix);
            var at := |prefix| + Offset(collection, separator, i);
            && at + |collection[i]| <= |r|
            && r[at..at + |collection[i]|] == collection[i]
            && (i > 0 ==> |prefix| + |separator| <= at && r[at - |separator|..at] == separator)
  {
    var body := Joined(collection, separator);
    var r := JoinToString(collection, separator, prefix, postfix);
    assert r == prefix + body + postfix;
    JoinedPlacement(collection, separator, i);
    var o := Offset(collection, separator, i);
    var at := |prefix| + o;
    assert r[at..at + |collection[i]|] == body[o..o + |collection[i]|];
    if i > 0 {
      assert r[at - |separator|..at] == body[o - |separator|..o];
    }
  }

  /** `joinToString(collection)` with every default: `[1, 2, 3]`. */
  lemma DefaultsExample()
    ensures JoinToString(["1", "2", "3"]) == "[1, 2, 3]"
  {
  }

  /** `joinToString(collection, " - ")`: `[1 - 2 - 3]`. */
  lemma SeparatorExample()
    ensures JoinToString(["1", "2", "3"], " - ") == "[1 - 2 - 3]"
  {
  }

  /** `joinToString(collection, prefix = "{", postfix = "}")`: `{1, 2, 3}`. */
  lemma NamedArgumentsExample()
    ensures JoinToString(["1", "2", "3"], prefix := "{", postfix := "}") == "{1, 2, 3}"
  {
  }

  /** `joinToString(collection, "{", "}")`: the positional arguments bind the
      separator and the prefix, leaving the default postfix, so `}1{2{3]`. */
  lemma PositionalArgumentsExample()
    ensures JoinToString(["1", "2", "3"], "{", "}") == "}1{2{3]"
  {
  }
}
