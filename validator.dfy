/**
 * The example host validator (example/main.go): a host is accepted when its
 * name is a well-formed host name and the last character of its first label
 * is an even decimal digit.
 */
module Validator {
  import Text

  predicate IsAlnum(c: char)
  {
    '0' <= c <= '9' || 'A' <= c <= 'Z' || 'a' <= c <= 'z'
  }

  /** One label of the host name pattern: 1 to 63 letters, digits or hyphens, starting and ending with a letter or digit. */
  predicate IsLabel(s: string)
  {
    && 1 <= |s| <= 63
    && IsAlnum(s[0]) && IsAlnum(s[|s| - 1])
    && forall i :: 0 <= i < |s| ==> IsAlnum(s[i]) || s[i] == '-'
  }

  /** The name without the one trailing dot the pattern allows. */
  function Body(fqdn: string): (body: string)
    ensures body == fqdn || (|fqdn| > 0 && fqdn[|fqdn| - 1] == '.' && body == fqdn[..|fqdn| - 1])
  {
    if |fqdn| > 0 && fqdn[|fqdn| - 1] == '.' then fqdn[..|fqdn| - 1] else fqdn
  }

  /** hostnameRegex: dot-separated labels, optionally followed by one dot. */
  predicate MatchesHostname(fqdn: string)
  {
    var labels := Text.Split(Body(fqdn), '.');
    forall k :: 0 <= k < |labels| ==> IsLabel(labels[k])
  }

  /** The first occurrence is the only position holding c with no c before it. */
  lemma {:induction false} IndexOfUnique(s: string, c: char, i: int)
    requires 0 <= i < |s| && s[i] == c && c !in s[..i]
    ensures Text.IndexOf(s, c) == i
  {
  }

  /**
   * On a well-formed host name holding a dot, the text before the first dot
   * (what prefixRegex captures) is the first label, so it is not empty.
   */
  lemma {:induction false} PrefixIsFirstLabel(fqdn: string)
    requires MatchesHostname(fqdn) && '.' in fqdn
    ensures var i := Text.IndexOf(fqdn, '.');
      i >= 1 && fqdn[..i] == Text.Split(Body(fqdn), '.')[0]
  {
    var body := Body(fqdn);
    var i := Text.IndexOf(fqdn, '.');
    var labels := Text.Split(body, '.');
    assert IsLabel(labels[0]);
    if '.' in body {
      var j := Text.IndexOf(body, '.');
      assert body[..j] == fqdn[..j];
      IndexOfUnique(fqdn, '.', j);
    } else {
      assert fqdn[|fqdn| - 1] == '.';
      assert body == fqdn[..|fqdn| - 1];
      IndexOfUnique(fqdn, '.', |fqdn| - 1);
    }
  }

  /** CheckHost: the name must match, hold a dot, and the last character before the first dot must parse as an even number. */
  function CheckHost(fqdn: string): bool
  {
    if !MatchesHostname(fqdn) then false
    else if '.' !in fqdn then false
    else
      var prefix := fqdn[..Text.IndexOf(fqdn, '.')];
      PrefixIsFirstLabel(fqdn);
      var c := prefix[|prefix| - 1];
      var (val, isNumber) := Text.AtoiChar(c);
      isNumber && val % 2 == 0
  }

  /**
   * A host is accepted exactly when its name matches, it holds a dot, and
   * the first label ends in one of the digits 0, 2, 4, 6, 8.
   */
  lemma {:induction false} CheckHostAcceptsEvenFirstLabels(fqdn: string)
    ensures CheckHost(fqdn) <==>
      && MatchesHostname(fqdn) && '.' in fqdn
      && var first := Text.Split(Body(fqdn), '.')[0];
         |first| >= 1 && first[|first| - 1] in ['0', '2', '4', '6', '8']
  {
    if MatchesHostname(fqdn) && '.' in fqdn {
      PrefixIsFirstLabel(fqdn);
    }
  }

  /** Labels joined with dots form a matching name that splits back into the same labels. */
  lemma {:induction false} JoinedLabelsMatch(labels: seq<string>)
    requires |labels| >= 1
    requires forall k :: 0 <= k < |labels| ==> IsLabel(labels[k])
    ensures var name := Text.Join(labels, ".");
      MatchesHostname(name) && Text.Split(Body(name), '.') == labels
  {
    var name := Text.Join(labels, ".");
    forall k | 0 <= k < |labels|
      ensures '.' !in labels[k]
    {
      assert IsLabel(labels[k]);
    }
    var last := labels[|labels| - 1];
    assert name[|name| - 1] == last[|last| - 1] by {
      if |labels| > 1 {
        assert name == Text.Join(labels[..|labels| - 1], ".") + "." + last;
      }
    }
    assert Body(name) == name;
    Text.JoinSplitRoundTrip(labels, '.');
  }

  /** A name of two or more labels is accepted exactly when its first label ends in an even digit; one label never is. */
  lemma {:induction false} CheckHostOfLabels(labels: seq<string>)
    requires |labels| >= 1
    requires forall k :: 0 <= k < |labels| ==> IsLabel(labels[k])
    ensures CheckHost(Text.Join(labels, ".")) <==>
      |labels| >= 2 && |labels[0]| >= 1 && labels[0][|labels[0]| - 1] in ['0', '2', '4', '6', '8']
  {
    var name := Text.Join(labels, ".");
    JoinedLabelsMatch(labels);
    CheckHostAcceptsEvenFirstLabels(name);
    if |labels| >= 2 {
      Text.JoinCons(labels[0], labels[1..], ".");
      assert [labels[0]] + labels[1..] == labels;
      assert name[|labels[0]|] == '.';
    } else {
      assert name == labels[0];
      assert '.' !in labels[0] by {
        assert IsLabel(labels[0]);
      }
    }
  }

  /** The names of the example's test, as labels joined with dots. */
  lemma {:induction false} ExampleNames()
    ensures Text.Join(["example2", "testing", "com"], ".") == "example2.testing.com"
    ensures Text.Join(["example", "testing", "com"], ".") == "example.testing.com"
    ensures Text.Join(["127", "0", "0", "1"], ".") == "127.0.0.1"
    ensures Text.Join(["localhost"], ".") == "localhost"
    ensures Text.Join(["example32", "com"], ".") == "example32.com"
  {
    var a := ["example2", "testing", "com"];
    assert a[..2][..1] == ["example2"] && a[..2] == ["example2", "testing"];
    var b := ["example", "testing", "com"];
    assert b[..2][..1] == ["example"] && b[..2] == ["example", "testing"];
    var c := ["127", "0", "0", "1"];
    assert c[..3][..2][..1] == ["127"] && c[..3][..2] == ["127", "0"] && c[..3] == ["127", "0", "0"];
    assert Text.Join(c[..3][..2], ".") == "127.0";
    assert Text.Join(c[..3], ".") == "127.0.0";
    var d := ["example32", "com"];
    assert d[..1] == ["example32"];
  }

  /** "example2.testing.com" is accepted: its first label ends in 2. */
  lemma {:induction false} AcceptsExample2()
    ensures CheckHost("example2.testing.com")
  {
    ExampleNames();
    var labels := ["example2", "testing", "com"];
    assert IsLabel(labels[0]) && IsLabel(labels[1]) && IsLabel(labels[2]);
    CheckHostOfLabels(labels);
  }

  /** "example32.com" is accepted: its first label ends in 2. */
  lemma {:induction false} AcceptsExample32()
    ensures CheckHost("example32.com")
  {
    ExampleNames();
    var labels := ["example32", "com"];
    assert IsLabel(labels[0]) && IsLabel(labels[1]);
    CheckHostOfLabels(labels);
  }

  /** "example.testing.com" is refused: its first label does not end in a digit. */
  lemma {:induction false} RefusesNoDigit()
    ensures !CheckHost("example.testing.com")
  {
    ExampleNames();
    var labels := ["example", "testing", "com"];
    assert IsLabel(labels[0]) && IsLabel(labels[1]) && IsLabel(labels[2]);
    CheckHostOfLabels(labels);
  }

  /** "127.0.0.1" is refused: its first label ends in the odd digit 7. */
  lemma {:induction false} RefusesOddDigit()
    ensures !CheckHost("127.0.0.1")
  {
    ExampleNames();
    var labels := ["127", "0", "0", "1"];
    assert IsLabel(labels[0]) && IsLabel(labels[1]) && IsLabel(labels[2]) && IsLabel(labels[3]);
    CheckHostOfLabels(labels);
  }

  /** "localhost" is refused: it holds no dot. */
  lemma {:induction false} RefusesNoDot()
    ensures !CheckHost("localhost")
  {
    ExampleNames();
    var labels := ["localhost"];
    assert IsLabel(labels[0]);
    CheckHostOfLabels(labels);
  }
}
