/** Table names as the command sees them: PHP truthiness of a name and the
    three fixed name patterns that `cleanMatch` greps the table snapshot with. */
module TableNames {
  import opened Sequences

  /** PHP's `!$name` on a string: true exactly for "" and "0". */
  predicate Falsy(name: string): (falsy: bool)
    ensures falsy ==> |name| <= 1
    ensures |name| == 1 ==> (falsy <==> name[0] == '0')
  {
    name == "" || name == "0"
  }

  predicate IsSuffix(p: string, s: string) {
    |p| <= |s| && s[|s| - |p|..] == p
  }

  /** `needle` occurs in `s` starting at position `i`. */
  predicate OccursAt(s: string, needle: string, i: int) {
    0 <= i <= |s| - |needle| && s[i..i + |needle|] == needle
  }

  /** `needle` occurs somewhere in `s` (a PCRE pattern made of literal characters). */
  predicate Contains(s: string, needle: string) {
    exists i | 0 <= i <= |s| - |needle| :: OccursAt(s, needle, i)
  }

  /** The three regular expressions of the command. `/_cl$/` is a suffix test;
      PCRE's `$` (no D modifier) also matches just before a final newline.
      The flat-table expressions are plain substrings. */
  datatype Pattern = ChangelogSuffix | Infix(needle: string)
  {
    predicate Accepts(name: string): (accepted: bool)
      ensures accepted && ChangelogSuffix? ==> |name| >= 3 && name[|name| - 1] in "l\n"
      ensures accepted && Infix? ==> |name| >= |needle|
    {
      match this
      case ChangelogSuffix => IsSuffix("_cl", name) || IsSuffix("_cl\n", name)
      case Infix(needle) => Contains(name, needle)
    }
  }

  const CategoryFlat: Pattern := Infix("_category_flat_")
  const ProductFlat: Pattern := Infix("_product_flat_")

  /** `preg_grep`: the names the pattern accepts, in their original order. */
  function Grep(p: Pattern, names: seq<string>): (matched: seq<string>)
    ensures |matched| <= |names|
  {
    if names == [] then []
    else (if p.Accepts(names[0]) then [names[0]] else []) + Grep(p, names[1..])
  }

  /** The matches are exactly the listed names the pattern accepts. */
  lemma {:induction false} GrepContents(p: Pattern, names: seq<string>, t: string)
    ensures t in Grep(p, names) <==> t in names && p.Accepts(t)
    decreases |names|
  {
    if names != [] {
      GrepContents(p, names[1..], t);
      assert names == [names[0]] + names[1..];
    }
  }

  /** Grepping is done name by name: it distributes over concatenation, which
      (with the singleton case) pins down the order of the matches. */
  lemma {:induction false} GrepAppend(p: Pattern, a: seq<string>, b: seq<string>)
    ensures Grep(p, a + b) == Grep(p, a) + Grep(p, b)
    decreases |a|
  {
    if a == [] {
      assert a + b == b;
    } else {
      assert (a + b)[0] == a[0] && (a + b)[1..] == a[1..] + b;
      GrepAppend(p, a[1..], b);
      // Regrouping hint: the solver is slow to reassociate these concatenations unaided.
      Regroup3(if p.Accepts(a[0]) then [a[0]] else [], Grep(p, a[1..]), Grep(p, b));
    }
  }

  /** No falsy name is ever matched by the command's patterns, so the rule
      loops never need the falsy test that the group loop makes. */
  lemma FalsyNeverMatched(p: Pattern, name: string)
    requires p.Infix? ==> |p.needle| >= 2
    ensures p.Accepts(name) ==> !Falsy(name)
  {
  }
}
