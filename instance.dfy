/**
 * One upstream backend (cmd/internal/instance/instance.go, and the Backend record of
 * cmd/app/main.go): its address, its liveness flag and the reads and writes of that flag.
 * The read-write mutex is not modelled: the model is sequential, so every read of the flag
 * sees the last write.
 */
module Instance {

  /** The character fmt's %d verb prints for a decimal digit. */
  function Digit(d: nat): (c: char)
    requires d < 10
    ensures '0' <= c <= '9'
  {
    "0123456789"[d]
  }

  /** The value of a decimal digit character. */
  function DigitValue(c: char): (d: nat)
    ensures d < 10
  {
    if '0' <= c <= '9' then (c - '0') as nat else 0
  }

  /** The text fmt.Sprintf("%d", n) produces for a non-negative n. */
  function Decimal(n: nat): (s: string)
    decreases n
  {
    if n < 10 then [Digit(n)] else Decimal(n / 10) + [Digit(n % 10)]
  }

  /** Reads a string of decimal digits back as a number. */
  function ParseDecimal(s: string): nat
    decreases |s|
  {
    if s == [] then 0 else ParseDecimal(s[..|s| - 1]) * 10 + DigitValue(s[|s| - 1])
  }

  /** Printing a port in decimal loses nothing: reading it back gives the port. */
  lemma {:induction false} DecimalRoundTrip(n: nat)
    ensures ParseDecimal(Decimal(n)) == n
    decreases n
  {
    if n >= 10 {
      DecimalRoundTrip(n / 10);
      var s := Decimal(n);
      assert s[..|s| - 1] == Decimal(n / 10);
      assert DigitValue(s[|s| - 1]) == n % 10;
    }
  }

  /** Different ports print differently. */
  lemma DecimalInjective(m: nat, n: nat)
    ensures Decimal(m) == Decimal(n) ==> m == n
  {
    DecimalRoundTrip(m);
    DecimalRoundTrip(n);
  }

  /** The host part of a backend's URL, "localhost:<port>". */
  function HostOf(port: nat): string
  {
    "localhost:" + Decimal(port)
  }

  /** The URL url.Parse(fmt.Sprintf("http://localhost:%d", port)) stands for. */
  function UrlOf(port: nat): string
  {
    "http://" + HostOf(port)
  }

  /** Strings that agree after a common prefix agree. */
  lemma PrefixCancel(prefix: string, a: string, b: string)
    requires prefix + a == prefix + b
    ensures a == b
  {
    assert a == (prefix + a)[|prefix|..];
    assert b == (prefix + b)[|prefix|..];
  }

  /** Strings that agree before a common suffix agree. */
  lemma SuffixCancel(a: string, b: string, suffix: string)
    requires a + suffix == b + suffix
    ensures a == b
  {
    assert a == (a + suffix)[..|a|];
    assert b == (b + suffix)[..|b|];
  }

  /** Two backends built on different ports never share a URL, even with a common path after it. */
  lemma UrlOfInjective(p: nat, q: nat, path: string)
    ensures UrlOf(p) + path == UrlOf(q) + path ==> p == q
  {
    if UrlOf(p) + path == UrlOf(q) + path {
      SuffixCancel(UrlOf(p), UrlOf(q), path);
      PrefixCancel("http://", HostOf(p), HostOf(q));
      PrefixCancel("localhost:", Decimal(p), Decimal(q));
      DecimalInjective(p, q);
    }
  }

  class Backend {
    /** The port the backend instance listens on. */
    const port: nat
    /** The URL's host, "localhost:<port>". */
    const host: string
    /** The URL's string form, which MarkBackendStatus compares. */
    const url: string
    /** The liveness flag. */
    var alive: bool

    /**
     * instance.New: a backend on the given port, alive from the start, whose URL is
     * http://localhost:<port>. Go's url.Parse refuses a negative port, hence nat.
     */
    constructor New(port: nat)
      ensures this.port == port && host == HostOf(port) && url == UrlOf(port)
      ensures alive
    {
      this.port := port;
      host := HostOf(port);
      url := UrlOf(port);
      alive := true;
    }

    /**
     * The alive backend record that the prototype in cmd/app/main.go builds for each port,
     * whose URL carries the path "/hello". That record has no port or host field: here they
     * only describe the URL, and nothing in the prototype's model reads them.
     */
    constructor WithPath(port: nat, path: string)
      ensures this.port == port && host == HostOf(port) && url == UrlOf(port) + path
      ensures alive
    {
      this.port := port;
      host := HostOf(port);
      url := UrlOf(port) + path;
      alive := true;
    }

    /** IsAlive: reads the flag and changes nothing. */
    function IsAlive(): (a: bool)
      reads this
      ensures a == alive
    {
      alive
    }

    /** SetAlive: overwrites the flag and nothing else. */
    method SetAlive(a: bool)
      modifies this`alive
      ensures alive == a
    {
      alive := a;
    }
  }

  /** A value written with SetAlive is what IsAlive reads next. */
  method SetThenRead(b: Backend, a: bool) returns (r: bool)
    modifies b`alive
    ensures r == a && b.alive == a
  {
    b.SetAlive(a);
    r := b.IsAlive();
  }

  /** The liveness flags of a sequence of backends, in order. */
  function Flags(bs: seq<Backend>): (f: seq<bool>)
    reads bs
    ensures |f| == |bs|
    ensures forall i {:trigger f[i]} :: 0 <= i < |bs| ==> f[i] == bs[i].alive
    decreases |bs|
  {
    if bs == [] then [] else Flags(bs[..|bs| - 1]) + [bs[|bs| - 1].alive]
  }

  /** The URL strings of a sequence of backends, in order. */
  function Urls(bs: seq<Backend>): (u: seq<string>)
    ensures |u| == |bs|
    ensures forall i {:trigger u[i]} :: 0 <= i < |bs| ==> u[i] == bs[i].url
    decreases |bs|
  {
    if bs == [] then [] else Urls(bs[..|bs| - 1]) + [bs[|bs| - 1].url]
  }

  /** No backend object occurs twice. */
  ghost predicate Distinct(bs: seq<Backend>)
  {
    forall i, j :: 0 <= i < j < |bs| ==> bs[i] != bs[j]
  }

  /** No URL occurs twice (which makes the backends distinct too). */
  ghost predicate DistinctUrls(bs: seq<Backend>)
  {
    forall i, j :: 0 <= i < j < |bs| ==> bs[i].url != bs[j].url
  }

  /** The position of each backend of a sequence in which none occurs twice. */
  ghost function Positions(bs: seq<Backend>): (m: map<Backend, nat>)
    requires Distinct(bs)
    ensures forall i :: 0 <= i < |bs| ==> bs[i] in m && m[bs[i]] == i
  {
    map i | 0 <= i < |bs| :: bs[i] := i
  }

  /** The position of the backend with each URL, in a sequence in which no URL occurs twice. */
  ghost function UrlPositions(bs: seq<Backend>): (m: map<string, nat>)
    requires DistinctUrls(bs)
    ensures forall i :: 0 <= i < |bs| ==> bs[i].url in m && m[bs[i].url] == i
  {
    map i | 0 <= i < |bs| :: bs[i].url := i
  }

  /** Backends with distinct URLs are distinct objects. */
  lemma DistinctUrlsAreDistinct(bs: seq<Backend>)
    requires DistinctUrls(bs)
    ensures Distinct(bs)
  {
  }
}
