/** Selection of the capture device: the first input device that has at least
    two input channels and whose name, lower-cased, mentions "monitor". */
module Devices {

  datatype Option<T> = None | Some(value: T)

  /** What the device query reports about one device. */
  datatype Device = Device(maxInputChannels: int, name: string)

  /** An ASCII capital letter. */
  predicate IsUpper(c: char) {
    'A' <= c <= 'Z'
  }

  /** Two characters that are equal, or the same ASCII letter in different case. */
  predicate SameIgnoringCase(c: char, d: char) {
    || c == d
    || (IsUpper(c) && c as int + 32 == d as int)
    || (IsUpper(d) && d as int + 32 == c as int)
  }

  /** Lower-casing of one character (ASCII letters only): the result is never
      a capital, and it is the same for two characters exactly when they
      differ at most in ASCII case. */
  function LowerChar(c: char): (l: char)
    ensures !IsUpper(l)
    ensures SameIgnoringCase(c, l)
  {
    if 'A' <= c <= 'Z' then (c as int + 32) as char else c
  }

  /** Lower-casing of a name, character by character. */
  function Lower(s: string): (r: string)
    ensures |r| == |s|
    ensures forall i :: 0 <= i < |s| ==> r[i] == LowerChar(s[i])
  {
    if s == [] then [] else [LowerChar(s[0])] + Lower(s[1..])
  }

  /** `pat` occurs in `s` starting at index `i`. */
  ghost predicate OccursAt(pat: string, s: string, i: int) {
    0 <= i && i + |pat| <= |s| && s[i..i + |pat|] == pat
  }

  /** Substring test: true iff `pat` occurs somewhere in `s`. */
  predicate Contains(s: string, pat: string)
    ensures Contains(s, pat) <==> exists i :: OccursAt(pat, s, i)
    decreases |s|
  {
    if |s| < |pat| then false
    else if s[..|pat|] == pat then assert OccursAt(pat, s, 0); true
    else
      var rest := Contains(s[1..], pat);
      assert rest ==> exists i :: OccursAt(pat, s, i) by {
        if rest {
          var i :| OccursAt(pat, s[1..], i);
          assert s[1..][i..i + |pat|] == s[i + 1..i + 1 + |pat|];
          assert OccursAt(pat, s, i + 1);
        }
      }
      assert (exists i :: OccursAt(pat, s, i)) ==> rest by {
        if exists i :: OccursAt(pat, s, i) {
          var i :| OccursAt(pat, s, i);
          assert i != 0;
          assert s[1..][i - 1..i - 1 + |pat|] == s[i..i + |pat|];
          assert OccursAt(pat, s[1..], i - 1);
        }
      }
      rest
  }

  /** Lower-casing identifies exactly the characters that differ only in case. */
  lemma LowerCharCaseless(c: char, d: char)
    ensures LowerChar(c) == LowerChar(d) <==> SameIgnoringCase(c, d)
  {
  }

  /** `pat` occurs in `s` at index `i`, up to ASCII case. */
  ghost predicate OccursIgnoringCaseAt(pat: string, s: string, i: int) {
    0 <= i && i + |pat| <= |s| && forall k :: 0 <= k < |pat| ==> SameIgnoringCase(s[i + k], pat[k])
  }

  /** For a pattern without capitals, an exact occurrence in the lower-cased
      string is an occurrence up to case in the original. */
  lemma OccursAtLower(pat: string, s: string, i: int)
    requires forall k :: 0 <= k < |pat| ==> !IsUpper(pat[k])
    ensures OccursAt(pat, Lower(s), i) <==> OccursIgnoringCaseAt(pat, s, i)
  {
    if 0 <= i && i + |pat| <= |s| {
      var low := Lower(s)[i..i + |pat|];
      forall k | 0 <= k < |pat|
        ensures low[k] == pat[k] <==> SameIgnoringCase(s[i + k], pat[k])
      {
        assert low[k] == LowerChar(s[i + k]);
        assert LowerChar(pat[k]) == pat[k];
        LowerCharCaseless(s[i + k], pat[k]);
      }
      if OccursIgnoringCaseAt(pat, s, i) {
        assert low == pat;
      }
    }
  }

  /** The substring test on the lower-cased name ignores case: it holds iff the
      (lower-case) pattern occurs in the name up to ASCII case. */
  lemma ContainsLowerIgnoresCase(s: string, pat: string)
    requires forall k :: 0 <= k < |pat| ==> !IsUpper(pat[k])
    ensures Contains(Lower(s), pat) <==> exists i :: OccursIgnoringCaseAt(pat, s, i)
  {
    if Contains(Lower(s), pat) {
      var i :| OccursAt(pat, Lower(s), i);
      OccursAtLower(pat, s, i);
    }
    if exists i :: OccursIgnoringCaseAt(pat, s, i) {
      var i :| OccursIgnoringCaseAt(pat, s, i);
      OccursAtLower(pat, s, i);
    }
  }

  /** The device the controller is willing to capture from. */
  predicate IsMonitor(d: Device) {
    d.maxInputChannels >= 2 && Contains(Lower(d.name), "monitor")
  }

  /** A device qualifies iff it has at least two input channels and its name
      contains "monitor" in any mix of ASCII case. */
  lemma IsMonitorIgnoresCase(d: Device)
    ensures IsMonitor(d) <==> d.maxInputChannels >= 2 && exists i :: OccursIgnoringCaseAt("monitor", d.name, i)
  {
    ContainsLowerIgnoresCase(d.name, "monitor");
  }

  /** A monitor name qualifies whatever its case. */
  lemma CapitalisedMonitorQualifies()
    ensures IsMonitor(Device(2, "Monitor of Built-in Audio"))
  {
    var name := "Monitor of Built-in Audio";
    assert forall k :: 0 <= k < 7 ==> SameIgnoringCase(name[k], "monitor"[k]);
    assert OccursIgnoringCaseAt("monitor", name, 0);
    IsMonitorIgnoresCase(Device(2, name));
  }

  /** So does one in capitals, at any position of the name. */
  lemma UpperCaseMonitorQualifies()
    ensures IsMonitor(Device(2, "USB MONITOR"))
  {
    var name := "USB MONITOR";
    assert forall k :: 0 <= k < 7 ==> SameIgnoringCase(name[4 + k], "monitor"[k]);
    assert OccursIgnoringCaseAt("monitor", name, 4);
    IsMonitorIgnoresCase(Device(2, name));
  }

  /** Linear search for the first monitor device; None when there is none. */
  method FindMonitor(devices: seq<Device>) returns (monitorIdx: Option<nat>)
    ensures monitorIdx.Some? ==>
      && monitorIdx.value < |devices|
      && IsMonitor(devices[monitorIdx.value])
      && forall j :: 0 <= j < monitorIdx.value ==> !IsMonitor(devices[j])
    ensures monitorIdx.None? <==> forall j :: 0 <= j < |devices| ==> !IsMonitor(devices[j])
  {
    monitorIdx := None;
    for i := 0 to |devices|
      invariant monitorIdx == None
      invariant forall j :: 0 <= j < i ==> !IsMonitor(devices[j])
    {
      var d := devices[i];
      if d.maxInputChannels >= 2 && Contains(Lower(d.name), "monitor") {
        monitorIdx := Some(i);
        break;
      }
    }
  }
}
