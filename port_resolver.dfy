/** Port resolver: finds the device path of the sensor among the serial
    ports the operating system enumerates, by case-sensitive substring
    search of each port's description. */
module PortResolver {
  import opened Common

  datatype Platform = Windows | Linux | Other

  /** One entry of `serial.tools.list_ports.comports()`. */
  datatype PortInfo = PortInfo(device: string, description: string)

  /** Descriptions searched for by main_v2.py. */
  const V2Targets: seq<string> := ["USB-SERIAL", "USB Serial"]

  /** The single description searched for by utils.py. */
  const Ch340Targets: seq<string> := ["USB-SERIAL CH340"]

  /** Python's `pat in s` on strings: case-sensitive substring test. */
  function Contains(s: string, pat: string): bool
    decreases |s|
  {
    pat <= s || (s != [] && Contains(s[1..], pat))
  }

  /** `pat` occurs in `s` at some offset. */
  ghost predicate OccursAt(s: string, pat: string, i: int)
  {
    0 <= i <= |s| && pat <= s[i..]
  }

  lemma {:induction false} ContainsIffOccurs(s: string, pat: string)
    ensures Contains(s, pat) <==> exists i :: OccursAt(s, pat, i)
    decreases |s|
  {
    if pat <= s {
      assert OccursAt(s, pat, 0);
    } else if s == [] {
      assert forall i :: !OccursAt(s, pat, i);
    } else {
      ContainsIffOccurs(s[1..], pat);
      if Contains(s[1..], pat) {
        var i :| OccursAt(s[1..], pat, i);
        assert s[1..][i..] == s[i + 1..];
        assert OccursAt(s, pat, i + 1);
      }
      if exists i :: OccursAt(s, pat, i) {
        var i :| OccursAt(s, pat, i);
        assert i != 0;
        assert s[1..][i - 1..] == s[i..];
        assert OccursAt(s[1..], pat, i - 1);
      }
    }
  }

  /** Substring containment is transitive: a description holding the longer
      target also holds every substring of it. */
  lemma ContainsTransitive(s: string, mid: string, pat: string)
    requires Contains(s, mid) && Contains(mid, pat)
    ensures Contains(s, pat)
  {
    ContainsIffOccurs(s, mid);
    ContainsIffOccurs(mid, pat);
    ContainsIffOccurs(s, pat);
    var i :| OccursAt(s, mid, i);
    var j :| OccursAt(mid, pat, j);
    assert mid[j..] <= s[i + j..] by {
      assert mid <= s[i..];
      forall k | 0 <= k < |mid[j..]| ensures mid[j..][k] == s[i + j..][k] {
        assert mid[j + k] == s[i..][j + k];
      }
    }
    assert OccursAt(s, pat, i + j);
  }

  /** Python's `any(desc in description for desc in targets)`. */
  predicate MatchesAny(description: string, targets: seq<string>)
  {
    exists t :: t in targets && Contains(description, t)
  }

  /** The device of the first enumerated port whose description matches. */
  function FirstMatch(ports: seq<PortInfo>, targets: seq<string>): Option<string>
  {
    if ports == [] then None
    else if MatchesAny(ports[0].description, targets) then Some(ports[0].device)
    else FirstMatch(ports[1..], targets)
  }

  /** `detect_serial_port`: the Windows and Linux branches run the same
      search; any other platform finds nothing. */
  function Resolve(platform: Platform, ports: seq<PortInfo>, targets: seq<string>): Option<string>
  {
    if platform == Other then None else FirstMatch(ports, targets)
  }

  /** FirstMatch finds nothing exactly when no port matches, and otherwise
      returns the device of the earliest matching port. */
  lemma {:induction false} FirstMatchIsEarliest(ports: seq<PortInfo>, targets: seq<string>)
    ensures FirstMatch(ports, targets) == None <==>
              forall k :: 0 <= k < |ports| ==> !MatchesAny(ports[k].description, targets)
    ensures FirstMatch(ports, targets) != None ==>
              exists k :: 0 <= k < |ports| && FirstMatch(ports, targets) == Some(ports[k].device)
                && MatchesAny(ports[k].description, targets)
                && forall j :: 0 <= j < k ==> !MatchesAny(ports[j].description, targets)
  {
    if ports != [] && !MatchesAny(ports[0].description, targets) {
      FirstMatchIsEarliest(ports[1..], targets);
      assert forall k :: 0 < k < |ports| ==> ports[k] == ports[1..][k - 1];
      if FirstMatch(ports, targets) != None {
        var k :| 0 <= k < |ports[1..]| && FirstMatch(ports[1..], targets) == Some(ports[1..][k].device)
                && MatchesAny(ports[1..][k].description, targets)
                && forall j :: 0 <= j < k ==> !MatchesAny(ports[1..][j].description, targets);
        assert forall j :: 0 < j < k + 1 ==> ports[j] == ports[1..][j - 1];
      }
    } else if ports != [] {
      assert MatchesAny(ports[0].description, targets);
    }
  }

  /** The search loop of `detect_serial_port`, with its early return. */
  method DetectSerialPort(platform: Platform, ports: seq<PortInfo>, targets: seq<string>)
    returns (device: Option<string>)
    ensures device == Resolve(platform, ports, targets)
  {
    if platform == Windows || platform == Linux {
      var i := 0;
      while i < |ports|
        invariant 0 <= i <= |ports|
        invariant FirstMatch(ports[i..], targets) == FirstMatch(ports, targets)
      {
        if MatchesAny(ports[i].description, targets) {
          return Some(ports[i].device);
        }
        assert ports[i..][1..] == ports[i + 1..];
        i := i + 1;
      }
    }
    return None;
  }

  /** Every port utils.py would pick also satisfies main_v2.py's broader
      target list, since "USB-SERIAL" is a substring of "USB-SERIAL CH340". */
  lemma Ch340PortMatchesV2(description: string)
    requires MatchesAny(description, Ch340Targets)
    ensures MatchesAny(description, V2Targets)
  {
    assert "USB-SERIAL" <= "USB-SERIAL CH340";
    assert Contains("USB-SERIAL CH340", "USB-SERIAL");
    assert Contains(description, "USB-SERIAL CH340");
    ContainsTransitive(description, "USB-SERIAL CH340", "USB-SERIAL");
    assert "USB-SERIAL" in V2Targets;
  }

  lemma {:induction false} ShorterNeverContains(s: string, pat: string)
    requires |s| < |pat|
    ensures !Contains(s, pat)
    decreases |s|
  {
    if s != [] { ShorterNeverContains(s[1..], pat); }
  }

  /** The matching is case-sensitive: a lower-case description is not found. */
  lemma MatchIsCaseSensitive()
    ensures !MatchesAny("usb-serial", V2Targets)
  {
    var d := "usb-serial";
    assert d[0] != 'U';
    ShorterNeverContains(d[1..], "USB-SERIAL");
    ShorterNeverContains(d[1..], "USB Serial");
  }
}
