/**
 * The x-axis tick formatter of the humidity chart:
 * `val.split(":").slice(0, 2).join(":")`, which keeps the text up to the
 * second colon ("HH:MM:SS" becomes "HH:MM").
 */
module HumidityChart {

  predicate NoColon(s: string)
  {
    forall i :: 0 <= i < |s| ==> s[i] != ':'
  }

  function ColonCount(s: string): nat
  {
    if s == [] then 0 else (if s[0] == ':' then 1 else 0) + ColonCount(s[1..])
  }

  /** String.prototype.split(":"): never empty; "" gives [""]. */
  function Split(s: string): (parts: seq<string>)
    ensures |parts| >= 1
  {
    if s == [] then [""]
    else if s[0] == ':' then [""] + Split(s[1..])
    else var rest := Split(s[1..]); [[s[0]] + rest[0]] + rest[1..]
  }

  /** Array.prototype.join(":"). */
  function Join(parts: seq<string>): string
  {
    if parts == [] then ""
    else if |parts| == 1 then parts[0]
    else parts[0] + ":" + Join(parts[1..])
  }

  /** The formatter: the first two colon-separated pieces, rejoined. */
  function TickLabel(val: string): string
  {
    var parts := Split(val);
    Join(parts[..if |parts| < 2 then |parts| else 2])
  }

  lemma {:induction false} ColonCountAppend(a: string, b: string)
    ensures ColonCount(a + b) == ColonCount(a) + ColonCount(b)
  {
    if a != [] {
      assert (a + b)[0] == a[0];
      assert (a + b)[1..] == a[1..] + b;
      ColonCountAppend(a[1..], b);
    } else {
      assert a + b == b;
    }
  }

  lemma {:induction false} NoColonCount(s: string)
    ensures NoColon(s) <==> ColonCount(s) == 0
  {
    if s != [] {
      NoColonCount(s[1..]);
      if NoColon(s[1..]) && s[0] != ':' {
        forall i | 0 <= i < |s| ensures s[i] != ':' {
          if i > 0 { assert s[i] == s[1..][i - 1]; }
        }
      }
    }
  }

  /** The pieces hold no colon, there is one more piece than colons, and joining them gives back the input. */
  lemma {:induction false} SplitJoin(s: string)
    ensures forall k :: 0 <= k < |Split(s)| ==> NoColon(Split(s)[k])
    ensures |Split(s)| == ColonCount(s) + 1
    ensures Join(Split(s)) == s
  {
    if s == [] {
    } else if s[0] == ':' {
      SplitJoin(s[1..]);
      var rest := Split(s[1..]);
      assert Split(s) == [""] + rest;
      assert Split(s)[1..] == rest;
      assert s == ":" + s[1..];
    } else {
      SplitJoin(s[1..]);
      var rest := Split(s[1..]);
      var first := [s[0]] + rest[0];
      assert Split(s) == [first] + rest[1..];
      assert NoColon(first) by {
        forall i | 0 <= i < |first| ensures first[i] != ':' {
          if i > 0 { assert first[i] == rest[0][i - 1]; }
        }
      }
      if |rest| == 1 {
        assert Join(Split(s)) == first;
      } else {
        assert Join(rest) == rest[0] + ":" + Join(rest[1..]);
        assert Split(s)[1..] == rest[1..];
        assert Join(Split(s)) == first + ":" + Join(rest[1..]);
      }
      assert s == [s[0]] + s[1..];
    }
  }

  /** Joining colon-free pieces puts exactly one colon between neighbours. */
  lemma {:induction false} JoinColons(parts: seq<string>)
    requires |parts| >= 1
    requires forall k :: 0 <= k < |parts| ==> NoColon(parts[k])
    ensures ColonCount(Join(parts)) == |parts| - 1
  {
    if |parts| == 1 {
      NoColonCount(parts[0]);
    } else {
      JoinColons(parts[1..]);
      NoColonCount(parts[0]);
      ColonCountAppend(parts[0] + ":", Join(parts[1..]));
      ColonCountAppend(parts[0], ":");
      assert ColonCount(":") == 1 by { assert ":"[1..] == ""; }
    }
  }

  /** Joining a prefix of the pieces gives a prefix of the joined whole. */
  lemma {:induction false} JoinPrefix(parts: seq<string>, n: nat)
    requires 1 <= n <= |parts|
    ensures Join(parts[..n]) <= Join(parts)
  {
    if n < |parts| {
      if n == 1 {
        assert Join(parts[..1]) == parts[0];
      } else {
        JoinPrefix(parts[1..], n - 1);
        assert parts[..n][1..] == parts[1..][..n - 1];
        assert Join(parts[..n]) == parts[0] + ":" + Join(parts[1..][..n - 1]);
      }
    } else {
      assert parts[..n] == parts;
    }
  }

  /** The label is a prefix of the input. */
  lemma TickLabelIsPrefix(val: string)
    ensures TickLabel(val) <= val
  {
    var parts := Split(val);
    SplitJoin(val);
    JoinPrefix(parts, if |parts| < 2 then |parts| else 2);
  }

  /** The label holds at most one colon. */
  lemma TickLabelColons(val: string)
    ensures ColonCount(TickLabel(val)) <= 1
  {
    var parts := Split(val);
    SplitJoin(val);
    var n := if |parts| < 2 then |parts| else 2;
    JoinColons(parts[..n]);
  }

  /** An input with at most one colon is returned unchanged. */
  lemma TickLabelKeepsShort(val: string)
    requires ColonCount(val) <= 1
    ensures TickLabel(val) == val
  {
    var parts := Split(val);
    SplitJoin(val);
    assert parts[..|parts|] == parts;
  }

  /** Formatting twice is formatting once. */
  lemma TickLabelIdempotent(val: string)
    ensures TickLabel(TickLabel(val)) == TickLabel(val)
  {
    TickLabelColons(val);
    TickLabelKeepsShort(TickLabel(val));
  }

  /** A colon-free piece followed by a colon splits off as the first piece. */
  lemma {:induction false} SplitPiece(a: string, b: string)
    requires NoColon(a)
    ensures Split(a + ":" + b) == [a] + Split(b)
    ensures Split(a) == [a]
  {
    if a == [] {
      assert a + ":" + b == [':'] + b;
      assert (a + ":" + b)[1..] == b;
    } else {
      var t := a + ":" + b;
      assert t[0] == a[0] && t[1..] == a[1..] + ":" + b;
      assert NoColon(a[1..]) by {
        forall i | 0 <= i < |a[1..]| ensures a[1..][i] != ':' { assert a[1..][i] == a[i + 1]; }
      }
      SplitPiece(a[1..], b);
      assert [a[0]] + a[1..] == a;
    }
  }

  /** A clock reading loses its seconds. */
  lemma TickLabelDropsSeconds()
    ensures TickLabel("14:05:09") == "14:05"
  {
    SplitPiece("14", "05:09");
    SplitPiece("05", "09");
    SplitPiece("09", "");
    assert "14:05:09" == "14" + ":" + "05:09";
    assert "05:09" == "05" + ":" + "09";
    assert Split("14:05:09") == ["14", "05", "09"];
    assert Split("14:05:09")[..2] == ["14", "05"];
    assert Join(["14", "05"]) == "14" + ":" + Join(["05"]);
  }
}
