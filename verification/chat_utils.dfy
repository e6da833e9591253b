/** get_client_ip of gweb/chat/utils.py: the caller's address from the request headers. */
module ChatUtils {
  import opened Wrappers

  /** Python's str.isspace(): the characters str.strip() removes. */
  predicate IsSpace(c: char)
    ensures c == ' ' || c == '\t' || c == '\n' || c == '\r' ==> IsSpace(c)
    ensures ('0' <= c <= '9' || 'a' <= c <= 'z' || 'A' <= c <= 'Z' || c == '.' || c == ':' || c == ',')
      ==> !IsSpace(c)
  {
    var k := c as int;
    || 9 <= k <= 13
    || 28 <= k <= 32
    || k == 0x85 || k == 0xA0 || k == 0x1680
    || 0x2000 <= k <= 0x200A
    || k == 0x2028 || k == 0x2029 || k == 0x202F || k == 0x205F || k == 0x3000
  }

  /** s.split(',')[0]: everything before the first comma, or all of s when it has none. */
  function FirstSegment(s: string): (r: string)
    ensures |r| <= |s| && r == s[..|r|]
    ensures ',' !in r
    ensures |r| == |s| || s[|r|] == ','
  {
    if s == [] || s[0] == ',' then []
    else [s[0]] + FirstSegment(s[1..])
  }

  /** The number of whitespace characters s starts with. */
  function LeadingSpaces(s: string): (n: nat)
    ensures n <= |s|
    ensures forall k :: 0 <= k < n ==> IsSpace(s[k])
    ensures n == |s| || !IsSpace(s[n])
  {
    if s == [] || !IsSpace(s[0]) then 0
    else 1 + LeadingSpaces(s[1..])
  }

  /** The number of whitespace characters s ends with. */
  function TrailingSpaces(s: string): (n: nat)
    ensures n <= |s|
    ensures forall k :: |s| - n <= k < |s| ==> IsSpace(s[k])
    ensures n == |s| || !IsSpace(s[|s| - n - 1])
  {
    if s == [] || !IsSpace(s[|s| - 1]) then 0
    else 1 + TrailingSpaces(s[..|s| - 1])
  }

  /**
   * s[i..j] is what stripping s leaves: everything outside it is whitespace,
   * and a non-empty result neither starts nor ends with whitespace.
   */
  predicate IsStripOf(s: string, i: int, j: int) {
    && 0 <= i <= j <= |s|
    && (forall k :: 0 <= k < i ==> IsSpace(s[k]))
    && (forall k :: j <= k < |s| ==> IsSpace(s[k]))
    && (i < j ==> !IsSpace(s[i]) && !IsSpace(s[j - 1]))
  }

  /** s.strip() */
  function Strip(s: string): (r: string)
    ensures IsStripOf(s, LeadingSpaces(s), LeadingSpaces(s) + |r|)
    ensures r == s[LeadingSpaces(s)..LeadingSpaces(s) + |r|]
  {
    var i := LeadingSpaces(s);
    var rest := s[i..];
    var t := TrailingSpaces(rest);
    var j := |s| - t;
    assert forall k :: j <= k < |s| ==> IsSpace(s[k]) by {
      forall k | j <= k < |s|
        ensures IsSpace(s[k])
      {
        assert s[k] == rest[k - i];
      }
    }
    assert i < j ==> !IsSpace(s[j - 1]) by {
      if i < j {
        assert s[j - 1] == rest[|rest| - t - 1];
      }
    }
    s[i..j]
  }

  /** The strip of a string is unique: any cut meeting IsStripOf yields Strip(s). */
  lemma StripUnique(s: string, i: int, j: int)
    requires IsStripOf(s, i, j)
    ensures s[i..j] == Strip(s)
  {
    var i' := LeadingSpaces(s);
    var j' := i' + |Strip(s)|;
    if i < j && i' < j' {
      assert i' <= i && i <= i';
      assert j' <= j && j <= j';
    }
  }

  lemma AbsentFromSlice(s: string, a: int, b: int, c: char)
    requires 0 <= a <= b <= |s| && c !in s
    ensures c !in s[a..b]
  {
  }

  /**
   * get_client_ip: with a non-empty X-Forwarded-For header, its first
   * comma-separated entry, stripped; otherwise REMOTE_ADDR, which may itself
   * be absent.
   */
  function GetClientIp(forwardedFor: Option<string>, remoteAddr: Option<string>): (r: Option<string>)
    ensures forwardedFor.None? || forwardedFor == Some("") ==> r == remoteAddr
    ensures forwardedFor.Some? && forwardedFor.value != "" ==>
      && r.Some?
      && ',' !in r.value
      && (r.value == [] || (!IsSpace(r.value[0]) && !IsSpace(r.value[|r.value| - 1])))
  {
    if forwardedFor.Some? && forwardedFor.value != "" then
      var first := FirstSegment(forwardedFor.value);
      var ip := Strip(first);
      AbsentFromSlice(first, LeadingSpaces(first), LeadingSpaces(first) + |ip|, ',');
      Some(ip)
    else remoteAddr
  }

  /**
   * The address taken from the header is the stripped text before its
   * first comma, however that prefix is found.
   */
  lemma ClientIpIsFirstEntry(header: string, remoteAddr: Option<string>, cut: nat)
    requires header != ""
    requires cut <= |header| && ',' !in header[..cut]
    requires cut == |header| || header[cut] == ','
    ensures GetClientIp(Some(header), remoteAddr) == Some(Strip(header[..cut]))
  {
    FirstSegmentUnique(header, cut);
  }

  /** The first segment is the only comma-free prefix that ends at the end or at a comma. */
  lemma {:induction false} FirstSegmentUnique(s: string, cut: nat)
    requires cut <= |s| && ',' !in s[..cut]
    requires cut == |s| || s[cut] == ','
    ensures FirstSegment(s) == s[..cut]
    decreases |s|
  {
    if s != [] && s[0] != ',' {
      assert cut > 0;
      assert s[1..][..cut - 1] == s[1..cut];
      FirstSegmentUnique(s[1..], cut - 1);
      assert s[..cut] == [s[0]] + s[1..cut];
    }
  }

  /** A header with a single entry yields that entry, stripped. */
  lemma SingleEntryHeader(header: string, remoteAddr: Option<string>)
    requires header != "" && ',' !in header
    ensures GetClientIp(Some(header), remoteAddr) == Some(Strip(header))
  {
    assert header[..|header|] == header;
    ClientIpIsFirstEntry(header, remoteAddr, |header|);
  }

  /** A header of whitespace before its first comma yields the empty address, not REMOTE_ADDR. */
  lemma BlankFirstEntry(header: string, remoteAddr: Option<string>)
    requires header != ""
    requires forall k :: 0 <= k < |FirstSegment(header)| ==> IsSpace(FirstSegment(header)[k])
    ensures GetClientIp(Some(header), remoteAddr) == Some("")
  {
    var first := FirstSegment(header);
    StripUnique(first, |first|, |first|);
  }
}
