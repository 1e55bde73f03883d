/**
 * The audio effects side-chain of a capture session: an echo canceller (AEC) and a noise
 * suppressor (NS), each with a device capability, an optional instance and an enabled flag,
 * and the status text that reports them.
 */
module Effects {

  /** One platform effect instance (AcousticEchoCanceler or NoiseSuppressor) bound to a session. */
  class AudioEffect {
    var enabled: bool
    var released: bool

    constructor ()
      ensures !enabled && !released
    {
      enabled := false;
      released := false;
    }

    method SetEnabled(b: bool)
      modifies this`enabled
      ensures enabled == b
    {
      enabled := b;
    }

    method Release()
      modifies this`released
      ensures released
    {
      released := true;
    }
  }

  /** What `create(sessionId)` does on the platform: returns an instance, returns null, or throws. */
  datatype CreateReply = Creates | ReturnsNull | CreateThrows

  const StatusHeader: string := "音频处理状态:\n"
  const AecHeading: string := "AEC (回声消除): "
  const NsHeading: string := "NS (噪声抑制): "
  const EnabledText: string := "✓ 已启用"
  const DisabledText: string := "○ 已禁用"
  const UnsupportedText: string := "✗ 不支持"

  /** The status word of one effect: not supported when unavailable, whatever its flag; else by the flag. */
  function EffectStatus(available: bool, enabled: bool): string
  {
    if !available then UnsupportedText else if enabled then EnabledText else DisabledText
  }

  /** The text before the AEC status word, and the text between the two status words. */
  const StatusLead: string := StatusHeader + AecHeading
  const StatusMiddle: string := "\n" + NsHeading

  /** The full status text for both effects. */
  function StatusInfo(aecAvailable: bool, aecEnabled: bool, nsAvailable: bool, nsEnabled: bool): string
  {
    StatusLead + EffectStatus(aecAvailable, aecEnabled) + StatusMiddle + EffectStatus(nsAvailable, nsEnabled)
  }

  /** What a status word says: availability always, and the flag whenever the effect is available. */
  lemma EffectStatusMeaning(a1: bool, e1: bool, a2: bool, e2: bool)
    ensures |EffectStatus(a1, e1)| == 5
    ensures EffectStatus(a1, e1) == EffectStatus(a2, e2) <==> a1 == a2 && (a1 ==> e1 == e2)
  {
    assert EnabledText[0] == '✓' && DisabledText[0] == '○' && UnsupportedText[0] == '✗';
  }

  /**
   * The status text is read back unambiguously: two texts agree exactly when both effects
   * agree on availability and, where available, on the enabled flag. An unavailable
   * effect reads the same whatever its flag.
   */
  lemma {:induction false} StatusInfoMeaning(a1: bool, e1: bool, n1: bool, m1: bool, a2: bool, e2: bool, n2: bool, m2: bool)
    ensures StatusInfo(a1, e1, n1, m1) == StatusInfo(a2, e2, n2, m2) <==>
      a1 == a2 && (a1 ==> e1 == e2) && n1 == n2 && (n1 ==> m1 == m2)
  {
    EffectStatusMeaning(a1, e1, a2, e2);
    EffectStatusMeaning(n1, m1, n2, m2);
    FixedSlotsEqual(StatusLead, EffectStatus(a1, e1), StatusMiddle, EffectStatus(n1, m1), EffectStatus(a2, e2), EffectStatus(n2, m2));
  }

  /** Two texts with the same fixed parts agree exactly when their equally long slots and their tails agree. */
  lemma FixedSlotsEqual(x: string, w: string, y: string, z: string, w': string, z': string)
    requires |w| == |w'|
    ensures x + w + y + z == x + w' + y + z' <==> w == w' && z == z'
  {
    var s, t := x + w + y + z, x + w' + y + z';
    if s == t {
      var i, j := |x|, |x| + |w| + |y|;
      assert s[i..i + |w|] == w && t[i..i + |w|] == w';
      assert s[j..] == z && t[j..] == z';
    }
  }

  /** The slot after a fixed lead holds the word put there. */
  lemma SlotAt(x: string, w: string, rest: string)
    ensures (x + w + rest)[|x|..][..|w|] == w
  {
    assert (x + w + rest)[|x|..] == w + rest;
  }

  class AudioProcessor {
    const audioSessionId: int
    /** AcousticEchoCanceler.isAvailable() on this device. */
    const aecAvailable: bool
    /** NoiseSuppressor.isAvailable() on this device. */
    const nsAvailable: bool
    var aec: AudioEffect?
    var ns: AudioEffect?
    var isAecEnabled: bool
    var isNsEnabled: bool

    /** Both enabled flags start false and no instance exists. */
    constructor (audioSessionId: int, aecAvailable: bool, nsAvailable: bool)
      ensures this.audioSessionId == audioSessionId
      ensures this.aecAvailable == aecAvailable && this.nsAvailable == nsAvailable
      ensures aec == null && ns == null && !isAecEnabled && !isNsEnabled
    {
      this.audioSessionId := audioSessionId;
      this.aecAvailable := aecAvailable;
      this.nsAvailable := nsAvailable;
      aec := null;
      ns := null;
      isAecEnabled := false;
      isNsEnabled := false;
    }

    /** Whether initialisation reaches the NS step: an AEC `create` that throws ends it early. */
    predicate ReachesNs(aecReply: CreateReply)
    {
      !(aecAvailable && aecReply == CreateThrows)
    }

    /**
     * initialize: for each available effect, create an instance; a created one is enabled
     * and its flag set, a null one leaves the flag alone. An exception is caught and ends
     * initialisation, so a throwing AEC `create` means NS is not attempted.
     */
    method Initialize(aecReply: CreateReply, nsReply: CreateReply)
      modifies this`aec, this`ns, this`isAecEnabled, this`isNsEnabled
      ensures isAecEnabled == (old(isAecEnabled) || (aecAvailable && aecReply == Creates))
      ensures isNsEnabled == (old(isNsEnabled) || (ReachesNs(aecReply) && nsAvailable && nsReply == Creates))
      ensures aecAvailable && aecReply == Creates ==> aec != null && fresh(aec) && aec.enabled
      ensures aecAvailable && aecReply == ReturnsNull ==> aec == null
      ensures !aecAvailable || aecReply == CreateThrows ==> aec == old(aec)
      ensures ReachesNs(aecReply) && nsAvailable && nsReply == Creates ==> ns != null && fresh(ns) && ns.enabled
      ensures ReachesNs(aecReply) && nsAvailable && nsReply == ReturnsNull ==> ns == null
      ensures !ReachesNs(aecReply) || !nsAvailable || nsReply == CreateThrows ==> ns == old(ns)
    {
      if aecAvailable {
        match aecReply
        case CreateThrows =>
          return;
        case ReturnsNull =>
          aec := null;
        case Creates =>
          aec := new AudioEffect();
          aec.SetEnabled(true);
          isAecEnabled := true;
      }
      if nsAvailable {
        match nsReply
        case CreateThrows =>
          return;
        case ReturnsNull =>
          ns := null;
        case Creates =>
          ns := new AudioEffect();
          ns.SetEnabled(true);
          isNsEnabled := true;
      }
    }

    /** setAecEnabled: the flag follows `enabled` even without an instance; NS is untouched. */
    method SetAecEnabled(enabled: bool)
      modifies this`isAecEnabled, aec
      ensures isAecEnabled == enabled
      ensures aec != null ==> aec.enabled == enabled
      ensures isNsEnabled == old(isNsEnabled)
      ensures ns != null && ns != aec ==> ns.enabled == old(ns.enabled)
    {
      if aec != null {
        aec.SetEnabled(enabled);
      }
      isAecEnabled := enabled;
    }

    /** setNsEnabled: the flag follows `enabled` even without an instance; AEC is untouched. */
    method SetNsEnabled(enabled: bool)
      modifies this`isNsEnabled, ns
      ensures isNsEnabled == enabled
      ensures ns != null ==> ns.enabled == enabled
      ensures isAecEnabled == old(isAecEnabled)
      ensures aec != null && aec != ns ==> aec.enabled == old(aec.enabled)
    {
      if ns != null {
        ns.SetEnabled(enabled);
      }
      isNsEnabled := enabled;
    }

    /** getStatusInfo, built append by append. */
    method GetStatusInfo() returns (info: string)
      ensures info == StatusInfo(aecAvailable, isAecEnabled, nsAvailable, isNsEnabled)
      ensures !aecAvailable ==> info[|StatusLead|..][..5] == UnsupportedText
    {
      var sb := StatusHeader;
      sb := sb + AecHeading;
      if aecAvailable {
        sb := sb + (if isAecEnabled then EnabledText else DisabledText);
      } else {
        sb := sb + UnsupportedText;
      }
      ghost var aecPart := sb;
      assert aecPart == StatusLead + EffectStatus(aecAvailable, isAecEnabled);
      sb := sb + "\n";
      sb := sb + NsHeading;
      assert sb == aecPart + StatusMiddle;
      if nsAvailable {
        sb := sb + (if isNsEnabled then EnabledText else DisabledText);
      } else {
        sb := sb + UnsupportedText;
      }
      info := sb;
      SlotAt(StatusLead, EffectStatus(aecAvailable, isAecEnabled), StatusMiddle + EffectStatus(nsAvailable, isNsEnabled));
    }

    /** release: releases and drops both instances; the enabled flags are kept. */
    method Release()
      modifies this`aec, this`ns, aec, ns
      ensures aec == null && ns == null
      ensures old(aec) != null ==> old(aec).released
      ensures old(ns) != null ==> old(ns).released
      ensures isAecEnabled == old(isAecEnabled) && isNsEnabled == old(isNsEnabled)
    {
      if aec != null {
        aec.Release();
      }
      aec := null;
      if ns != null {
        ns.Release();
      }
      ns := null;
    }
  }
}
