/** `formatUrl` from src/utils/url.utils.ts: rewrites a loopback host in the
    server URL by two calls to JavaScript's `String.prototype.replace` with a
    string pattern, which replaces only the first occurrence. */
module UrlUtils {
  import opened Strings

  /** `formatUrl(url)`: `[::1]` becomes `localhost`, then `0.0.0.0` becomes
      `127.0.0.1`. Each host present in the input is rewritten once: the URL
      grows by four characters for `[::1]` and by two for `0.0.0.0`. */
  function FormatUrl(url: string): (r: string)
    ensures |r| == |url| + (if Contains(url, "[::1]") then 4 else 0)
                         + (if Contains(url, "0.0.0.0") then 2 else 0)
  {
    var s := ReplaceFirst(url, "[::1]", "localhost");
    LoopbackStepKeepsFirstZeroHost(url);
    ContainsIffFound(url, "0.0.0.0");
    ContainsIffFound(s, "0.0.0.0");
    ReplaceFirst(s, "0.0.0.0", "127.0.0.1")
  }

  /** Where each character of the splice `s[..i] + rep + s[i + n..]` comes from. */
  lemma SpliceAt(s: string, i: nat, n: nat, rep: string, k: nat)
    requires i + n <= |s| && k < |s| - n + |rep|
    ensures var r := s[..i] + rep + s[i + n..];
            && (k < i ==> r[k] == s[k])
            && (i <= k < i + |rep| ==> r[k] == rep[k - i])
            && (i + |rep| <= k ==> r[k] == s[k - |rep| + n])
  {
  }

  /** After `[::1]` at index `i` is replaced by `localhost`, `0.0.0.0` occurs
      at index `j` exactly when it occurred in the input at the same place
      before the splice, or four places earlier after it: a span overlapping
      the inserted `localhost` cannot match, since none of its letters is
      `'0'` or `'.'`. */
  lemma ZeroHostAfterLoopback(s: string, i: nat, j: nat)
    requires i + 5 <= |s| && j + 7 <= |s| + 4
    ensures OccursAt(s[..i] + "localhost" + s[i + 5..], "0.0.0.0", j)
            <==> (j + 7 <= i && OccursAt(s, "0.0.0.0", j))
                 || (i + 9 <= j && OccursAt(s, "0.0.0.0", j - 4))
  {
    var z, lh := "0.0.0.0", "localhost";
    var r := s[..i] + lh + s[i + 5..];
    if j + 7 <= i || j >= i + 9 {
      var d := if j + 7 <= i then 0 else 4;
      var w, v := r[j..j + 7], s[j - d..j - d + 7];
      forall k | 0 <= k < 7
        ensures w[k] == v[k]
      {
        SpliceAt(s, i, 5, lh, j + k);
      }
      assert w == v;
    } else {
      var p := if j < i then i else j;
      SpliceAt(s, i, 5, lh, p);
      assert r[j..j + 7][p - j] != z[p - j];
    }
  }

  /** Replacing `[::1]` by `localhost` cannot create an occurrence of `0.0.0.0`. */
  lemma LoopbackStepAddsNoZeroHost(s: string)
    requires !Contains(s, "0.0.0.0")
    ensures !Contains(ReplaceFirst(s, "[::1]", "localhost"), "0.0.0.0")
  {
    var i := IndexOf(s, "[::1]");
    if i >= 0 {
      var r := s[..i] + "localhost" + s[i + 5..];
      forall j: nat | j + 7 <= |r|
        ensures !OccursAt(r, "0.0.0.0", j)
      {
        ZeroHostAfterLoopback(s, i, j);
      }
    }
  }

  /** An occurrence of `0.0.0.0` never overlaps one of `[::1]`: the two
      patterns share no character. */
  lemma HostsDoNotOverlap(s: string, i: nat, k: nat)
    requires OccursAt(s, "[::1]", i)
    ensures OccursAt(s, "0.0.0.0", k) ==> k + 7 <= i || i + 5 <= k
  {
    if k < i + 5 && i < k + 7 && k + 7 <= |s| {
      var p := if k < i then i else k;
      assert s[i..i + 5][p - i] == s[p];
      assert s[k..k + 7][p - k] == s[p];
      assert s[k..k + 7] != "0.0.0.0";
    }
  }

  /** A first `0.0.0.0` at `k`, ending before `[::1]` at `i`, is still the
      first one after the splice, at the same index. */
  lemma ZeroHostBeforeLoopback(s: string, i: nat, k: nat)
    requires i + 5 <= |s| && k + 7 <= i && OccursAt(s, "0.0.0.0", k)
    requires forall j :: 0 <= j < k ==> !OccursAt(s, "0.0.0.0", j)
    ensures IndexOf(s[..i] + "localhost" + s[i + 5..], "0.0.0.0") == k
  {
    var r := s[..i] + "localhost" + s[i + 5..];
    ZeroHostAfterLoopback(s, i, k);
    forall j | 0 <= j < k
      ensures !OccursAt(r, "0.0.0.0", j)
    {
      ZeroHostAfterLoopback(s, i, j);
    }
    IndexOfIsFirst(r, "0.0.0.0", k);
  }

  /** A first `0.0.0.0` at `k`, starting after `[::1]` at `i`, is the first
      one after the splice, four places further on. */
  lemma ZeroHostAfterLoopbackHost(s: string, i: nat, k: nat)
    requires i + 5 <= k && OccursAt(s, "0.0.0.0", k)
    requires forall j :: 0 <= j < k ==> !OccursAt(s, "0.0.0.0", j)
    ensures IndexOf(s[..i] + "localhost" + s[i + 5..], "0.0.0.0") == k + 4
  {
    var r := s[..i] + "localhost" + s[i + 5..];
    ZeroHostAfterLoopback(s, i, k + 4);
    forall j | 0 <= j < k + 4
      ensures !OccursAt(r, "0.0.0.0", j)
    {
      if j + 7 <= |r| {
        ZeroHostAfterLoopback(s, i, j);
        if i + 9 <= j {
          assert !OccursAt(s, "0.0.0.0", j - 4);
        }
      }
    }
    IndexOfIsFirst(r, "0.0.0.0", k + 4);
  }

  /** The `[::1]` step keeps the first `0.0.0.0` of any URL: it stays where it
      was when it comes before `[::1]`, moves right by the four characters
      `localhost` adds when it comes after, and none appears or disappears.
      So the second `replace` rewrites the `0.0.0.0` that came first in the
      original URL. */
  lemma LoopbackStepKeepsFirstZeroHost(s: string)
    ensures var i, k := IndexOf(s, "[::1]"), IndexOf(s, "0.0.0.0");
            IndexOf(ReplaceFirst(s, "[::1]", "localhost"), "0.0.0.0")
            == (if i < 0 || k < 0 || k < i then k else k + 4)
  {
    var i, k := IndexOf(s, "[::1]"), IndexOf(s, "0.0.0.0");
    if i >= 0 {
      if k < 0 {
        LoopbackStepAddsNoZeroHost(s);
      } else {
        HostsDoNotOverlap(s, i, k);
        if k < i {
          ZeroHostBeforeLoopback(s, i, k);
        } else {
          ZeroHostAfterLoopbackHost(s, i, k);
        }
      }
    }
  }

  /** A URL with neither loopback spelling is returned unchanged. */
  lemma FormatUrlKeepsPlainHost(url: string)
    requires !Contains(url, "[::1]") && !Contains(url, "0.0.0.0")
    ensures FormatUrl(url) == url
  {
  }

  /** A URL without `0.0.0.0` is changed by the `[::1]` step only. */
  lemma FormatUrlIpv6Only(url: string)
    requires !Contains(url, "0.0.0.0")
    ensures FormatUrl(url) == ReplaceFirst(url, "[::1]", "localhost")
  {
    LoopbackStepAddsNoZeroHost(url);
  }

  /** A URL whose first `[` opens `[::1]` and which has no `.` gets
      `localhost` in place of that `[::1]` and nothing else changes; with
      `a = 'http://'` and `b = ':3000'` this is the documented IPv6 case. */
  lemma FormatUrlIpv6Host(a: string, b: string)
    requires '[' !in a && '.' !in a && '.' !in b
    ensures FormatUrl(a + "[::1]" + b) == a + "localhost" + b
  {
    ReplaceFirstAfter(a, "[::1]", b, "localhost");
    var r := a + "localhost" + b;
    assert '.' !in r;
    MissingCharAbsent(r, "0.0.0.0", 1);
  }

  /** A URL without `[` whose first `0` opens `0.0.0.0` gets `127.0.0.1` in
      place of that `0.0.0.0` and nothing else changes; with `a = 'http://'`
      and `b = ':3000'` this is the documented any-address case. */
  lemma FormatUrlAnyAddressHost(a: string, b: string)
    requires '[' !in a && '[' !in b && '0' !in a
    ensures FormatUrl(a + "0.0.0.0" + b) == a + "127.0.0.1" + b
  {
    var s := a + "0.0.0.0" + b;
    assert '[' !in s;
    MissingCharAbsent(s, "[::1]", 0);
    ReplaceFirstAfter(a, "0.0.0.0", b, "127.0.0.1");
  }

  /** `formatUrl('http://127.0.0.1:3000')` leaves the URL as it is. */
  lemma FormatUrlPlainExample()
    ensures FormatUrl("http://127.0.0.1:3000") == "http://127.0.0.1:3000"
  {
    var s := "http://127.0.0.1:3000";
    MissingCharAbsent(s, "[::1]", 0);
    forall j | 0 <= j && j + 7 <= |s|
      ensures !OccursAt(s, "0.0.0.0", j)
    {
      var w := s[j..j + 7];
      assert w[0] == s[j] && w[1] == s[j + 1] && w[2] == s[j + 2];
      assert w[3] == s[j + 3] && w[4] == s[j + 4];
    }
    FormatUrlKeepsPlainHost(s);
  }
}
