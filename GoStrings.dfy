/** Go's strings.Split and strings.Join for a one-character separator. */
module GoStrings {

  /** Number of occurrences of c in s. */
  function CountChar(s: string, c: char): nat
  {
    if s == [] then 0 else (if s[0] == c then 1 else 0) + CountChar(s[1..], c)
  }

  /** strings.Split(s, [sep]): the maximal separator-free pieces between the
      separators. Empty pieces are kept, so n separators always give n + 1
      fields and the empty string gives the single field "". */
  function Split(s: string, sep: char): (fields: seq<string>)
    ensures |fields| == CountChar(s, sep) + 1
    ensures forall i :: 0 <= i < |fields| ==> sep !in fields[i]
  {
    if s == [] then [[]]
    else
      var rest := Split(s[1..], sep);
      if s[0] == sep then [[]] + rest
      else [[s[0]] + rest[0]] + rest[1..]
  }

  /** strings.Join(fields, [sep]). */
  function Join(fields: seq<string>, sep: char): string
  {
    if |fields| == 0 then []
    else if |fields| == 1 then fields[0]
    else fields[0] + [sep] + Join(fields[1..], sep)
  }

  /** Joining the fields of a split with the same separator rebuilds the text. */
  lemma {:induction false} JoinSplit(s: string, sep: char)
    ensures Join(Split(s, sep), sep) == s
  {
    if s != [] {
      var rest := Split(s[1..], sep);
      JoinSplit(s[1..], sep);
      if s[0] == sep {
        assert Split(s, sep) == [[]] + rest;
        assert ([[]] + rest)[1..] == rest;
        assert s == [sep] + s[1..];
      } else {
        var fields := Split(s, sep);
        assert fields == [[s[0]] + rest[0]] + rest[1..];
        if |rest| == 1 {
          assert rest == [rest[0]];
          assert s == [s[0]] + s[1..];
        } else {
          assert fields[1..] == rest[1..];
          calc {
            Join(fields, sep);
            ([s[0]] + rest[0]) + [sep] + Join(rest[1..], sep);
            [s[0]] + (rest[0] + [sep] + Join(rest[1..], sep));
            [s[0]] + Join(rest, sep);
            [s[0]] + s[1..];
            s;
          }
        }
      }
    }
  }

  /** Splitting a text that starts with a separator-free piece f: f is glued
      to the first field of the rest. */
  lemma {:induction false} SplitFreePrefix(f: string, t: string, sep: char)
    requires sep !in f
    ensures Split(f + t, sep) == [f + Split(t, sep)[0]] + Split(t, sep)[1..]
  {
    var st := Split(t, sep);
    if f == [] {
      assert f + t == t;
      assert f + st[0] == st[0];
      assert st == [st[0]] + st[1..];
    } else {
      assert (f + t)[1..] == f[1..] + t;
      assert (f + t)[0] == f[0];
      SplitFreePrefix(f[1..], t, sep);
      var rest := Split(f[1..] + t, sep);
      assert rest == [f[1..] + st[0]] + st[1..];
      assert rest[1..] == st[1..];
      assert [f[0]] + (f[1..] + st[0]) == f + st[0];
    }
  }

  /** Splitting fields joined by the separator gives back the fields, provided
      none of them contains the separator. */
  lemma {:induction false} SplitJoin(fields: seq<string>, sep: char)
    requires |fields| >= 1
    requires forall i :: 0 <= i < |fields| ==> sep !in fields[i]
    ensures Split(Join(fields, sep), sep) == fields
  {
    if |fields| == 1 {
      SplitFreePrefix(fields[0], [], sep);
      assert fields[0] + [] == fields[0];
      assert fields == [fields[0]];
    } else {
      var tail := Join(fields[1..], sep);
      SplitJoin(fields[1..], sep);
      assert Split([sep] + tail, sep) == [[]] + fields[1..];
      assert fields[0] + [sep] + tail == fields[0] + ([sep] + tail);
      SplitFreePrefix(fields[0], [sep] + tail, sep);
      var st := Split([sep] + tail, sep);
      assert st[0] == [] && st[1..] == fields[1..];
      assert fields[0] + [] == fields[0];
      assert fields == [fields[0]] + fields[1..];
    }
  }
}
