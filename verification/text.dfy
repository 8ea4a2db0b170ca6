/**
 * Text assembly shared by the console's formatters: `Array.join` and the
 * one-field-per-line blocks the record templates produce.
 */
module Text {

  /** `xs.join(sep)`. */
  function Join(xs: seq<string>, sep: string): string
    decreases |xs|
  {
    if |xs| == 0 then ""
    else if |xs| == 1 then xs[0]
    else xs[0] + sep + Join(xs[1..], sep)
  }

  /** Joining two non-empty lists puts exactly one separator between them. */
  lemma {:induction false} JoinAppend(xs: seq<string>, ys: seq<string>, sep: string)
    requires |xs| > 0 && |ys| > 0
    ensures Join(xs + ys, sep) == Join(xs, sep) + sep + Join(ys, sep)
    decreases |xs|
  {
    var zs := xs + ys;
    assert zs[0] == xs[0];
    if |xs| == 1 {
      assert zs[1..] == ys;
    } else {
      assert zs[1..] == xs[1..] + ys;
      JoinAppend(xs[1..], ys, sep);
    }
  }

  /** Every element appears in order: the join is the join of the elements
      before it, the element itself, and the join of those after it, with
      exactly one separator between neighbours. */
  lemma JoinAt(xs: seq<string>, sep: string, i: nat)
    requires i < |xs|
    ensures Join(xs, sep) ==
              Join(xs[..i], sep) + (if i == 0 then "" else sep) + xs[i]
              + (if i == |xs| - 1 then "" else sep + Join(xs[i + 1..], sep))
  {
    var before, after := xs[..i], xs[i + 1..];
    assert Join([xs[i]], sep) == xs[i];
    if i < |xs| - 1 {
      assert xs[i..] == [xs[i]] + after;
      JoinAppend([xs[i]], after, sep);
    } else {
      assert xs[i..] == [xs[i]];
    }
    if i > 0 {
      assert xs == before + xs[i..];
      JoinAppend(before, xs[i..], sep);
    } else {
      assert xs == xs[i..];
    }
  }

  /** `text` has `part` somewhere inside it. */
  ghost predicate Shows(text: string, part: string) {
    exists pre, post :: text == pre + part + post
  }

  /** Every element of a join shows in the joined text. */
  lemma JoinShows(xs: seq<string>, sep: string, i: nat)
    requires i < |xs|
    ensures Shows(Join(xs, sep), xs[i])
  {
    JoinAt(xs, sep, i);
    var pre := Join(xs[..i], sep) + (if i == 0 then "" else sep);
    var post := if i == |xs| - 1 then "" else sep + Join(xs[i + 1..], sep);
    assert Join(xs, sep) == pre + xs[i] + post;
  }

  /** Every element of a join shows in the joined text. */
  lemma JoinShowsAll(xs: seq<string>, sep: string)
    ensures forall i :: 0 <= i < |xs| ==> Shows(Join(xs, sep), xs[i])
  {
    forall i | 0 <= i < |xs|
      ensures Shows(Join(xs, sep), xs[i])
    {
      JoinShows(xs, sep, i);
    }
  }

  /** One `"key": value` property of a rendered record. */
  datatype Field = Field(key: string, value: string)

  /** The line a template writes for one property: four spaces of indent,
      the quoted key, the value (inside quotes when `quoted`) and a comma on
      every line but the last. */
  function FieldLine(f: Field, quoted: bool, last: bool): string {
    "    \"" + f.key + "\": " + (if quoted then "\"" + f.value + "\"" else f.value) + (if last then "" else ",")
  }

  function FieldLines(fs: seq<Field>, quoted: bool): (ls: seq<string>)
    ensures |ls| == |fs|
    ensures forall i :: 0 <= i < |fs| ==> ls[i] == FieldLine(fs[i], quoted, i == |fs| - 1)
  {
    seq(|fs|, i requires 0 <= i < |fs| => FieldLine(fs[i], quoted, i == |fs| - 1))
  }

  /** A record template: a blank first line, `{`, the property lines, `}`,
      and whatever indentation precedes the template's closing backtick. */
  function Block(fs: seq<Field>, quoted: bool, trailer: string): string {
    "\n{\n" + Join(FieldLines(fs, quoted), "\n") + "\n}\n" + trailer
  }

  function Keys(fs: seq<Field>): (ks: seq<string>)
    ensures |ks| == |fs|
    ensures forall i :: 0 <= i < |fs| ==> ks[i] == fs[i].key
  {
    seq(|fs|, i requires 0 <= i < |fs| => fs[i].key)
  }

  /** Every property of a block is rendered on its own line. */
  lemma BlockShowsField(fs: seq<Field>, quoted: bool, trailer: string, i: nat)
    requires i < |fs|
    ensures Shows(Block(fs, quoted, trailer), FieldLine(fs[i], quoted, i == |fs| - 1))
  {
    var ls := FieldLines(fs, quoted);
    JoinShows(ls, "\n", i);
    var pre, post :| Join(ls, "\n") == pre + ls[i] + post;
    assert Block(fs, quoted, trailer) == ("\n{\n" + pre) + ls[i] + (post + "\n}\n" + trailer);
  }

  /** Every property of a block is rendered on its own line. */
  lemma BlockShowsAll(fs: seq<Field>, quoted: bool, trailer: string)
    ensures forall i :: 0 <= i < |fs| ==> Shows(Block(fs, quoted, trailer), FieldLine(fs[i], quoted, i == |fs| - 1))
  {
    forall i | 0 <= i < |fs|
      ensures Shows(Block(fs, quoted, trailer), FieldLine(fs[i], quoted, i == |fs| - 1))
    {
      BlockShowsField(fs, quoted, trailer, i);
    }
  }

  /** Containment is transitive. */
  lemma ShowsWithin(outer: string, inner: string, part: string)
    requires Shows(outer, inner) && Shows(inner, part)
    ensures Shows(outer, part)
  {
    var a, b :| outer == a + inner + b;
    var c, d :| inner == c + part + d;
    assert outer == (a + c) + part + (d + b);
  }
}
