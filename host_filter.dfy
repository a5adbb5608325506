/**
 * The noise filter of the proxy script: a flow is ignored when one of the
 * configured endpoint fragments occurs anywhere in its lower-cased network
 * location (host, and port when one is given).
 */
module HostFilter {

  /** The endpoint fragments whose traffic is never recorded (Android, then iOS). */
  const IgnoredEndpoints: seq<string> := [
    "gstatic.com",
    "tenor.com",
    "googleapis.com",
    "mtalk.google.com",
    "clients4.google.com",
    "clients2.google.com",
    "android.clients.google.com",
    "connectivitycheck.gstatic.com",
    "update.googleapis.com",
    "csi.gstatic.com",
    "play.googleapis.com",
    "apple.com",
    "icloud.com",
    "itunes.apple.com",
    "mzstatic.com",
    "push.apple.com",
    "configuration.apple.com",
    "init.ess.apple.com",
    "crashlytics.com"
  ]

  /** Lower-casing of one character (ASCII letters only). */
  function LowerChar(c: char): char {
    if 'A' <= c <= 'Z' then (c as int + 32) as char else c
  }

  /** Python's str.lower, restricted to ASCII letters. */
  function Lower(s: string): (r: string)
    ensures |r| == |s|
    ensures forall i :: 0 <= i < |s| ==> !('A' <= r[i] <= 'Z')
    ensures forall i :: 0 <= i < |s| && !('A' <= s[i] <= 'Z') ==> r[i] == s[i]
    ensures forall i :: 0 <= i < |s| && 'A' <= s[i] <= 'Z' ==> r[i] as int == s[i] as int + 32
  {
    seq(|s|, i requires 0 <= i < |s| => LowerChar(s[i]))
  }

  /** `needle` is found in `hay` starting at index `i`. */
  ghost predicate OccursAt(needle: string, hay: string, i: nat) {
    i + |needle| <= |hay| && hay[i..i + |needle|] == needle
  }

  /** `needle` is a substring of `hay`: the meaning of Python's `needle in hay`. */
  ghost predicate Occurs(needle: string, hay: string) {
    exists i: nat :: OccursAt(needle, hay, i)
  }

  /** Substring search, scanning `hay` from the left. */
  function Contains(needle: string, hay: string): (r: bool)
    ensures r <==> Occurs(needle, hay)
    decreases |hay|
  {
    if |needle| > |hay| then
      assert forall i: nat :: !OccursAt(needle, hay, i);
      false
    else if hay[..|needle|] == needle then
      assert OccursAt(needle, hay, 0);
      true
    else
      var r := Contains(needle, hay[1..]);
      assert r ==> Occurs(needle, hay) by {
        if r {
          var i: nat :| OccursAt(needle, hay[1..], i);
          assert hay[i + 1..i + 1 + |needle|] == hay[1..][i..i + |needle|];
          assert OccursAt(needle, hay, i + 1);
        }
      }
      assert Occurs(needle, hay) ==> r by {
        if Occurs(needle, hay) {
          var j: nat :| OccursAt(needle, hay, j);
          assert j != 0;
          assert hay[1..][j - 1..j - 1 + |needle|] == hay[j..j + |needle|];
          assert OccursAt(needle, hay[1..], j - 1);
        }
      }
      r
  }

  /** Some entry of `entries` occurs in `hay`: Python's `any(e in hay for e in entries)`. */
  function AnyContained(entries: seq<string>, hay: string): (r: bool)
    ensures r <==> exists k :: 0 <= k < |entries| && Occurs(entries[k], hay)
  {
    if entries == [] then false
    else
      var r := Contains(entries[0], hay) || AnyContained(entries[1..], hay);
      assert forall k :: 1 <= k < |entries| ==> entries[k] == entries[1..][k - 1];
      r
  }

  /** `_is_ignored`: the flow whose network location is `netloc` is noise. */
  function IsIgnored(netloc: string): (r: bool)
    ensures r <==> exists k :: 0 <= k < |IgnoredEndpoints| && Occurs(IgnoredEndpoints[k], Lower(netloc))
  {
    AnyContained(IgnoredEndpoints, Lower(netloc))
  }

  /** Lower-casing twice is lower-casing once. */
  lemma LowerIdempotent(s: string)
    ensures Lower(Lower(s)) == Lower(s)
  {
    var once := Lower(s);
    assert forall i :: 0 <= i < |s| ==> Lower(once)[i] == LowerChar(LowerChar(s[i])) == once[i];
  }

  /** The filter does not distinguish a network location from its lower-cased form. */
  lemma IgnoreIsCaseInsensitive(netloc: string)
    ensures IsIgnored(Lower(netloc)) == IsIgnored(netloc)
  {
    LowerIdempotent(netloc);
  }

  /** Lower-casing works character by character, so it distributes over concatenation. */
  lemma LowerConcat(a: string, b: string)
    ensures Lower(a + b) == Lower(a) + Lower(b)
  {
    assert forall i :: 0 <= i < |a + b| ==> Lower(a + b)[i] == (Lower(a) + Lower(b))[i] by {
      forall i | 0 <= i < |a + b|
        ensures Lower(a + b)[i] == (Lower(a) + Lower(b))[i]
      {
        if i < |a| {
          assert (a + b)[i] == a[i];
        } else {
          assert (a + b)[i] == b[i - |a|];
        }
      }
    }
  }

  /** An occurrence inside `mid` is an occurrence inside any string around it. */
  lemma OccursAround(needle: string, pre: string, mid: string, post: string, i: nat)
    requires OccursAt(needle, mid, i)
    ensures OccursAt(needle, pre + mid + post, |pre| + i)
  {
    assert (pre + mid + post)[|pre| + i..|pre| + i + |needle|] == mid[i..i + |needle|];
  }

  /** Once a fragment occurs in a network location, any longer location around it is ignored too. */
  lemma IgnoredWithin(netloc: string, prefix: string, suffix: string)
    requires IsIgnored(netloc)
    ensures IsIgnored(prefix + netloc + suffix)
  {
    var k :| 0 <= k < |IgnoredEndpoints| && Occurs(IgnoredEndpoints[k], Lower(netloc));
    var i: nat :| OccursAt(IgnoredEndpoints[k], Lower(netloc), i);
    LowerConcat(prefix, netloc);
    LowerConcat(prefix + netloc, suffix);
    OccursAround(IgnoredEndpoints[k], Lower(prefix), Lower(netloc), Lower(suffix), i);
  }

  /** Google Play traffic is noise: "googleapis.com" occurs in its host. */
  lemma PlayServicesIgnored()
    ensures IsIgnored("play.googleapis.com")
  {
    assert Lower("play.googleapis.com") == "play.googleapis.com";
    assert OccursAt(IgnoredEndpoints[2], Lower("play.googleapis.com"), 5);
  }

  /**
   * Containment over-matches: a host that merely contains "apple.com" is
   * ignored although it is not an Apple host.
   */
  lemma LookalikeHostIgnored()
    ensures IsIgnored("notapple.com.example")
  {
    assert Lower("notapple.com.example") == "notapple.com.example";
    assert OccursAt(IgnoredEndpoints[11], Lower("notapple.com.example"), 3);
  }

  /** The emulator's address of the development machine is recorded: every entry is longer than it. */
  lemma EmulatorHostRecorded()
    ensures !IsIgnored("10.0.2.2")
  {
    assert forall k :: 0 <= k < |IgnoredEndpoints| ==> |IgnoredEndpoints[k]| > |"10.0.2.2"|;
  }
}
