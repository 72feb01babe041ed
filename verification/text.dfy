/**
 * String helpers shared by the SQL template builders: joining, placeholder
 * counting, decimal rendering (fmt's %d) and lexicographic order.
 */
module Text {

  /** `parts` with `sep` between neighbours, as strings.Join writes them. */
  function Join(parts: seq<string>, sep: string): string
  {
    if |parts| == 0 then ""
    else if |parts| == 1 then parts[0]
    else Join(parts[..|parts| - 1], sep) + sep + parts[|parts| - 1]
  }

  /** Every part followed by `sep`: what a builder loop has written before the last part. */
  function Terminated(parts: seq<string>, sep: string): string
  {
    if |parts| == 0 then "" else Terminated(parts[..|parts| - 1], sep) + parts[|parts| - 1] + sep
  }

  /** Extending a prefix by one part writes that part and a separator. */
  lemma TerminatedSnoc(parts: seq<string>, i: nat, sep: string)
    requires i < |parts|
    ensures Terminated(parts[..i + 1], sep) == Terminated(parts[..i], sep) + parts[i] + sep
  {
    assert parts[..i + 1][..i] == parts[..i];
  }

  /** Appending "<x><sep>" to a builder that holds `pre` followed by `t`. */
  lemma BuilderAssoc(pre: string, t: string, x: string, sep: string)
    ensures pre + t + (x + sep) == pre + (t + x + sep)
  {
  }

  /** Writing three pieces after a prefix, one at a time or as one string. */
  lemma Regroup(pre: string, a: string, b: string, c: string)
    ensures pre + (a + b + c) == pre + a + b + c
  {
  }

  /** A joined list is the terminated list of all but the last part, then the last part. */
  lemma {:induction false} JoinIsTerminatedPlusLast(parts: seq<string>, sep: string)
    requires |parts| > 0
    ensures Join(parts, sep) == Terminated(parts[..|parts| - 1], sep) + parts[|parts| - 1]
  {
    var n := |parts|;
    if n > 1 {
      assert parts[..n - 1][..n - 2] == parts[..n - 2];
      JoinIsTerminatedPlusLast(parts[..n - 1], sep);
    }
  }

  /** Number of `?` parameter markers in a SQL text. */
  function Placeholders(s: string): nat
  {
    if |s| == 0 then 0 else Placeholders(s[..|s| - 1]) + (if s[|s| - 1] == '?' then 1 else 0)
  }

  /** A name that cannot be mistaken for a parameter marker. */
  predicate Ident(s: string)
  {
    '?' !in s
  }

  predicate AllIdents(names: seq<string>)
  {
    forall i :: 0 <= i < |names| ==> Ident(names[i])
  }

  /** Markers of a concatenation are the markers of its halves. */
  lemma {:induction false} PlaceholdersAppend(a: string, b: string)
    ensures Placeholders(a + b) == Placeholders(a) + Placeholders(b)
  {
    if |b| > 0 {
      assert (a + b)[..|a + b| - 1] == a + b[..|b| - 1];
      PlaceholdersAppend(a, b[..|b| - 1]);
    } else {
      assert a + b == a;
    }
  }

  lemma {:induction false} IdentHasNoPlaceholders(s: string)
    requires Ident(s)
    ensures Placeholders(s) == 0
  {
    if |s| > 0 {
      assert Ident(s[..|s| - 1]) by {
        forall c | c in s[..|s| - 1] ensures c in s { }
      }
      IdentHasNoPlaceholders(s[..|s| - 1]);
    }
  }

  /** Appending a text free of markers adds none. */
  lemma AppendIdent(a: string, b: string)
    requires Ident(b)
    ensures Placeholders(a + b) == Placeholders(a)
  {
    PlaceholdersAppend(a, b);
    IdentHasNoPlaceholders(b);
  }

  /** Prepending a text free of markers adds none. */
  lemma PrependIdent(a: string, b: string)
    requires Ident(a)
    ensures Placeholders(a + b) == Placeholders(b)
  {
    PlaceholdersAppend(a, b);
    IdentHasNoPlaceholders(a);
  }

  /** A name followed by one marker-terminated literal, such as "k = ?", holds one marker. */
  lemma OneMarker(name: string, lit: string)
    requires Ident(name) && Ident(lit)
    ensures Placeholders(name + lit + "?") == 1
  {
    PlaceholdersAppend(name, lit);
    PlaceholdersAppend(name + lit, "?");
    IdentHasNoPlaceholders(name);
    IdentHasNoPlaceholders(lit);
  }

  /** Sum of the placeholders in `parts`. */
  function PlaceholdersIn(parts: seq<string>): nat
  {
    if |parts| == 0 then 0 else PlaceholdersIn(parts[..|parts| - 1]) + Placeholders(parts[|parts| - 1])
  }

  /** Joining with a separator free of markers keeps exactly the parts' markers. */
  lemma {:induction false} PlaceholdersOfJoin(parts: seq<string>, sep: string)
    requires Ident(sep)
    ensures Placeholders(Join(parts, sep)) == PlaceholdersIn(parts)
  {
    var n := |parts|;
    if n > 1 {
      assert parts[..n - 1][..n - 2] == parts[..n - 2];
      PlaceholdersOfJoin(parts[..n - 1], sep);
      PlaceholdersAppend(Join(parts[..n - 1], sep), sep);
      PlaceholdersAppend(Join(parts[..n - 1], sep) + sep, parts[n - 1]);
      IdentHasNoPlaceholders(sep);
    } else if n == 1 {
      assert parts[..0] == [];
    }
  }

  /** Joining names free of markers with a separator free of markers gives a text free of markers. */
  lemma {:induction false} JoinIdent(parts: seq<string>, sep: string)
    requires AllIdents(parts) && Ident(sep)
    ensures Ident(Join(parts, sep))
  {
    if |parts| > 1 {
      JoinIdent(parts[..|parts| - 1], sep);
    }
  }

  /** A list of parts with one marker each holds as many markers as parts. */
  lemma {:induction false} PlaceholdersInUniform(parts: seq<string>)
    requires forall i :: 0 <= i < |parts| ==> Placeholders(parts[i]) == 1
    ensures PlaceholdersIn(parts) == |parts|
  {
    if |parts| > 0 {
      PlaceholdersInUniform(parts[..|parts| - 1]);
    }
  }

  lemma {:induction false} PlaceholdersInIdents(parts: seq<string>)
    requires AllIdents(parts)
    ensures PlaceholdersIn(parts) == 0
  {
    if |parts| > 0 {
      IdentHasNoPlaceholders(parts[|parts| - 1]);
      PlaceholdersInIdents(parts[..|parts| - 1]);
    }
  }

  function DigitChar(d: nat): (c: char)
    requires d < 10
    ensures '0' <= c <= '9'
  {
    "0123456789"[d]
  }

  /** Decimal rendering of a natural number. */
  function NatToString(n: nat): (r: string)
    ensures Ident(r) && |r| > 0 && '0' <= r[0] <= '9'
  {
    if n < 10 then [DigitChar(n)] else NatToString(n / 10) + [DigitChar(n % 10)]
  }

  /** Decimal rendering of an integer, as fmt's %d writes it. */
  function IntToString(i: int): (r: string)
    ensures Ident(r)
    ensures i < 0 <==> (|r| > 0 && r[0] == '-')
  {
    if i < 0 then "-" + NatToString(-i) else NatToString(i)
  }

  /** `p` is a prefix of `s`. */
  predicate StartsWith(p: string, s: string)
  {
    |p| <= |s| && s[..|p|] == p
  }

  /** Byte-wise (here code-point-wise) lexicographic order, SQLite's BINARY collation. */
  predicate StrLe(a: string, b: string)
  {
    |a| == 0 || (|b| > 0 && (a[0] < b[0] || (a[0] == b[0] && StrLe(a[1..], b[1..]))))
  }

  lemma {:induction false} StrLeTotal(a: string, b: string)
    ensures StrLe(a, b) || StrLe(b, a)
  {
    if |a| > 0 && |b| > 0 && a[0] == b[0] {
      StrLeTotal(a[1..], b[1..]);
    }
  }

  lemma {:induction false} StrLeTrans(a: string, b: string, c: string)
    requires StrLe(a, b) && StrLe(b, c)
    ensures StrLe(a, c)
  {
    if |a| > 0 && a[0] == b[0] && b[0] == c[0] {
      StrLeTrans(a[1..], b[1..], c[1..]);
    }
  }
}
