/**
 * The landlord's home screen: the landlord code, masked unless the landlord
 * chose to reveal it, and the latest announcements.
 */
module LandlordHome {
  import opened Text

  /** `maskCode`: star out a code of at most four characters; otherwise keep two at each end. */
  function MaskCode(code: string): (r: string)
    ensures |r| == |code|
  {
    if |code| <= 4 then Repeat('*', |code|)
    else Take(code, 2) + Repeat('*', |code| - 4) + TakeLast(code, 2)
  }

  /** Whether `maskCode` keeps position `i` of a code of length `n`. */
  predicate KeptByCodeMask(n: nat, i: nat) {
    n > 4 && (i < 2 || i >= n - 2)
  }

  /** Character by character: a kept position shows the code, every other one a star. */
  lemma MaskCodeAt(code: string, i: nat)
    requires i < |code|
    ensures MaskCode(code)[i] == if KeptByCodeMask(|code|, i) then code[i] else '*'
  {
    if |code| > 4 {
      var stars := Repeat('*', |code| - 4);
      assert MaskCode(code) == code[..2] + stars + code[|code| - 2..];
      if i < 2 {
        assert MaskCode(code)[i] == code[..2][i];
      } else if i < |code| - 2 {
        assert MaskCode(code)[i] == stars[i - 2];
      } else {
        assert MaskCode(code)[i] == code[|code| - 2..][i - (|code| - 2)];
      }
    }
  }

  /** Masking a masked code changes nothing. */
  lemma MaskCodeIdempotent(code: string)
    ensures MaskCode(MaskCode(code)) == MaskCode(code)
  {
    var m := MaskCode(code);
    forall i | 0 <= i < |m|
      ensures MaskCode(m)[i] == m[i]
    {
      MaskCodeAt(m, i);
      MaskCodeAt(code, i);
    }
  }

  /** An eight-character landlord code shows its first two and last two characters around four stars. */
  lemma EightCharacterCodeMasked(code: string)
    requires |code| == 8
    ensures MaskCode(code) == code[..2] + "****" + code[6..]
  {
    assert Repeat('*', 4) == "****";
  }

  /** The code as the screen shows it. */
  function ShownCode(code: string, codeVisible: bool): string {
    if codeVisible then code else MaskCode(code)
  }

  /** The eye button: flips whether the code is visible. */
  function ToggleVisible(codeVisible: bool): (r: bool)
    ensures r != codeVisible
  {
    !codeVisible
  }

  /**
   * The raw code is on screen exactly when it is visible (for a code with
   * no star of its own, as a generated code has none), and pressing the
   * button twice shows what was shown before.
   */
  lemma ShownCodeToggle(code: string, codeVisible: bool)
    requires code != [] && forall i :: 0 <= i < |code| ==> code[i] != '*'
    ensures ShownCode(code, codeVisible) == code <==> codeVisible
    ensures ShownCode(code, ToggleVisible(ToggleVisible(codeVisible))) == ShownCode(code, codeVisible)
  {
    if !codeVisible {
      MaskCodeAt(code, if |code| > 4 then 2 else 0);
    }
  }

  /** The announcements the home card lists: the first three. */
  function ShownAnnouncements<T>(announcements: seq<T>): (r: seq<T>)
    ensures |r| <= 3
  {
    Take(announcements, 3)
  }

  /** The card lists the newest announcements in order, and all of them when there are at most three. */
  lemma ShownAnnouncementsArePrefix<T>(announcements: seq<T>)
    ensures ShownAnnouncements(announcements) <= announcements
    ensures |announcements| <= 3 ==> ShownAnnouncements(announcements) == announcements
    ensures |announcements| > 3 ==> |ShownAnnouncements(announcements)| == 3
  {
  }
}
