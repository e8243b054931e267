/** The two operations of Go's strings package that the fetch pipeline uses. */
module Strings {

  /** Lower-cases ASCII letters and leaves every other character alone.
      Used only to compare a header name with "host" in place of Go's strings.ToLower: no non-ASCII rune
      lower-cases to one of h, o, s, t, so this agrees with the Unicode
      strings.ToLower for that comparison. */
  function AsciiLower(s: string): (r: string)
  {
    seq(|s|, i requires 0 <= i < |s| => if 'A' <= s[i] <= 'Z' then (s[i] as int + 32) as char else s[i])
  }

  /** The header name names the Host header, compared without regard to case. */
  predicate IsHost(name: string)
  {
    AsciiLower(name) == "host"
  }

  lemma HostSpellings()
    ensures IsHost("host") && IsHost("Host") && IsHost("HOST")
    ensures !IsHost("hosts") && !IsHost("X-Host")
  {
    assert AsciiLower("Host") == "host";
    assert AsciiLower("HOST") == "host";
    assert |AsciiLower("hosts")| == 5;
    assert |AsciiLower("X-Host")| == 6;
  }

  /** strings.Join: the parts with the separator between consecutive ones. */
  function Join(parts: seq<string>, sep: string): string
    decreases |parts|
  {
    if |parts| == 0 then ""
    else if |parts| == 1 then parts[0]
    else parts[0] + sep + Join(parts[1..], sep)
  }

  function TotalLength(parts: seq<string>): nat
    decreases |parts|
  {
    if |parts| == 0 then 0 else |parts[0]| + TotalLength(parts[1..])
  }

  /** A joined string holds every part and one separator between each two. */
  lemma {:induction false} JoinLength(parts: seq<string>, sep: string)
    requires |parts| > 0
    ensures |Join(parts, sep)| == TotalLength(parts) + (|parts| - 1) * |sep|
    decreases |parts|
  {
    if |parts| > 1 {
      JoinLength(parts[1..], sep);
    }
  }

  /** Appending one more part appends the separator and that part. */
  lemma {:induction false} JoinSnoc(parts: seq<string>, last: string, sep: string)
    requires |parts| > 0
    ensures Join(parts + [last], sep) == Join(parts, sep) + sep + last
    decreases |parts|
  {
    if |parts| == 1 {
      assert parts + [last] == [parts[0], last];
      assert ([parts[0], last])[1..] == [last];
    } else {
      assert (parts + [last])[1..] == parts[1..] + [last];
      JoinSnoc(parts[1..], last, sep);
    }
  }

  /** A single value passes through; the empty list gives the empty string. */
  lemma JoinSmall(a: string, b: string, sep: string)
    ensures Join([], sep) == ""
    ensures Join([a], sep) == a
    ensures Join([a, b], sep) == a + sep + b
  {
    assert ([a, b])[1..] == [b];
  }
}
