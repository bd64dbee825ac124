/** Endpoint and pod labels: an IP address written as one DNS label, and read back. */
module HostLabel {
  import opened Objects
  import opened Text

  /** The label an endpoint address is published under. */
  function EndpointHostname(addr: Address, endpointNameMode: bool): string {
    if addr.hostname != "" then addr.hostname
    else if endpointNameMode && addr.targetRefName != "" then addr.targetRefName
    else if '.' in addr.ip then Replace(addr.ip, '.', '-')
    else if ':' in addr.ip then Replace(addr.ip, ':', '-')
    else ""
  }

  /** How a pod label is read back as an address: exactly three dashes, none doubled, mean IPv4. */
  function DashDecode(dashed: string): string {
    if Count(dashed, '-') == 3 && !Doubled(dashed, '-') then Replace(dashed, '-', '.')
    else Replace(dashed, '-', ':')
  }

  lemma ReplaceBack(s: string, from: char, to: char)
    requires to !in s
    ensures Replace(Replace(s, from, to), to, from) == s
  {
  }

  lemma {:induction false} CountReplace(s: string, from: char, to: char)
    requires to !in s
    ensures Count(Replace(s, from, to), to) == Count(s, from)
  {
    if s != "" {
      CountReplace(s[1..], from, to);
      assert Replace(s, from, to)[1..] == Replace(s[1..], from, to);
    }
  }

  lemma DoubledReplace(s: string, from: char, to: char)
    requires to !in s
    ensures Doubled(Replace(s, from, to), to) <==> Doubled(s, from)
  {
    var r := Replace(s, from, to);
    if i :| 0 <= i < |s| - 1 && s[i] == from && s[i + 1] == from {
      assert r[i] == to && r[i + 1] == to;
    }
    if i :| 0 <= i < |r| - 1 && r[i] == to && r[i + 1] == to {
      assert s[i] == from && s[i + 1] == from;
    }
  }

  /** An address text that looks like IPv4 to the decoder when its separators become dashes. */
  predicate LooksLikeIPv4(text: string, sep: char) {
    Count(text, sep) == 3 && !Doubled(text, sep)
  }

  /** An address that is published under its own IP rather than under a name. */
  predicate PublishedByIP(addr: Address, endpointNameMode: bool) {
    addr.hostname == "" && !(endpointNameMode && addr.targetRefName != "")
  }

  /** Exactly which dash-free address texts survive the round trip through a label: those with
      dots need three separate ones, those with only colons must not have three separate ones. */
  lemma LabelRoundTripIff(addr: Address, mode: bool)
    requires PublishedByIP(addr, mode) && '-' !in addr.ip
    ensures DashDecode(EndpointHostname(addr, mode)) == addr.ip <==>
            if '.' in addr.ip then LooksLikeIPv4(addr.ip, '.')
            else if ':' in addr.ip then !LooksLikeIPv4(addr.ip, ':')
            else addr.ip == ""
  {
    var ip := addr.ip;
    if '.' in ip {
      DecodeDashed(ip, '.');
    } else if ':' in ip {
      DecodeDashed(ip, ':');
    }
  }

  /** Decoding a text whose separators were turned into dashes restores it when the decoder
      guesses the right separator, and otherwise yields a different text. */
  lemma DecodeDashed(ip: string, sep: char)
    requires '-' !in ip && sep in ip && (sep == '.' || sep == ':')
    ensures DashDecode(Replace(ip, sep, '-')) == ip <==> (LooksLikeIPv4(ip, sep) <==> sep == '.')
  {
    var dashed := Replace(ip, sep, '-');
    CountReplace(ip, sep, '-');
    DoubledReplace(ip, sep, '-');
    ReplaceBack(ip, sep, '-');
    var k :| 0 <= k < |ip| && ip[k] == sep;
    var guess := if LooksLikeIPv4(ip, sep) then '.' else ':';
    assert DashDecode(dashed) == Replace(dashed, '-', guess);
    assert Replace(dashed, '-', guess)[k] == guess;
  }

  predicate IsDigit(c: char) { '0' <= c <= '9' }

  predicate IsHexDigit(c: char) { IsDigit(c) || 'a' <= c <= 'f' || 'A' <= c <= 'F' }

  /** Dotted text: four groups of decimal digits. */
  predicate IPv4Text(t: string) {
    var groups := Split(t, '.');
    |groups| == 4 && forall g :: g in groups ==> g != "" && forall c :: c in g ==> IsDigit(c)
  }

  /** Colon text (RFC 4291, section 2.2, forms 1 and 2): eight groups, or groups around a "::". */
  predicate IPv6Text(t: string) {
    && (forall c :: c in t ==> IsHexDigit(c) || c == ':')
    && (|Split(t, ':')| == 8 || Doubled(t, ':'))
  }

  lemma {:induction false} CountSplit(s: string, sep: char)
    ensures Count(s, sep) == |Split(s, sep)| - 1
  {
    if s != "" {
      CountSplit(s[1..], sep);
    }
  }

  /** Doubled separators leave an empty part between them. */
  lemma DoubledSplit(s: string, sep: char)
    requires Doubled(s, sep)
    ensures "" in Split(s, sep)
  {
    var i :| 0 <= i < |s| - 1 && s[i] == sep && s[i + 1] == sep;
    DoubledSplitTail(s, sep, i);
  }

  /** The empty part between doubled separators is not the first part of the rest. */
  lemma {:induction false} DoubledSplitTail(s: string, sep: char, i: nat)
    requires i < |s| - 1 && s[i] == sep && s[i + 1] == sep
    ensures "" in Split(s, sep)[1..]
    decreases i
  {
    var t := s[1..];
    if i == 0 {
      assert Split(s, sep) == [""] + Split(t, sep);
      assert Split(t, sep) == [""] + Split(t[1..], sep);
      assert Split(s, sep)[1..] == Split(t, sep);
    } else {
      assert t[i - 1] == sep && t[i] == sep;
      DoubledSplitTail(t, sep, i - 1);
      if s[0] == sep {
        assert Split(s, sep)[1..] == Split(t, sep);
      } else {
        assert Split(s, sep)[1..] == Split(t, sep)[1..];
      }
    }
  }

  /** The characters of a text are its separators and the characters of its parts. */
  lemma {:induction false} SplitChars(s: string, sep: char, c: char)
    requires c in s && c != sep
    ensures exists p :: p in Split(s, sep) && c in p
  {
    var parts := Split(s, sep);
    if s[0] == sep {
      SplitChars(s[1..], sep, c);
      assert parts == [""] + Split(s[1..], sep);
    } else if s[0] == c {
      assert c in parts[0];
    } else {
      SplitChars(s[1..], sep, c);
      var rest := Split(s[1..], sep);
      var p :| p in rest && c in p;
      if p == rest[0] {
        assert c in parts[0];
      } else {
        assert p in rest[1..];
      }
    }
  }

  /** Every IPv4 text and every IPv6 text comes back unchanged, and neither is mistaken for the
      other family. */
  lemma AddressRoundTrip(addr: Address, mode: bool)
    requires PublishedByIP(addr, mode)
    requires IPv4Text(addr.ip) || IPv6Text(addr.ip)
    ensures DashDecode(EndpointHostname(addr, mode)) == addr.ip
    ensures LooksLikeIPv4(EndpointHostname(addr, mode), '-') <==> IPv4Text(addr.ip)
    ensures IPv4Text(addr.ip) ==> !IPv6Text(addr.ip)
  {
    var ip := addr.ip;
    if IPv4Text(ip) {
      CountSplit(ip, '.');
      CountZero(ip, '.');
      if Doubled(ip, '.') {
        DoubledSplit(ip, '.');
        assert false;
      }
      if '-' in ip {
        SplitChars(ip, '.', '-');
        assert false;
      }
      CountReplace(ip, '.', '-');
      DoubledReplace(ip, '.', '-');
      assert !IsHexDigit('.');
    } else {
      assert '-' !in ip && '.' !in ip by {
        assert !IsHexDigit('-') && !IsHexDigit('.');
      }
      CountSplit(ip, ':');
      CountZero(ip, ':');
      CountReplace(ip, ':', '-');
      DoubledReplace(ip, ':', '-');
    }
    LabelRoundTripIff(addr, mode);
  }
}
