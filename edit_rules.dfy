/** The pure rules of the create-post screen: the playback clock, the
    "edited" rename applied when an edit is saved, and the names given to
    picked and recorded files. */
module EditRules {
  import opened Common
  import opened Strings

  // ---------------------------------------------------------------------------
  // Playback clock

  /** A number reaching `formatMillis`: NaN, or a whole number of milliseconds. */
  datatype JsNumber = NaN | Whole(value: int)

  /** `formatMillis`: "m:ss" for a positive number of milliseconds, "0:00" for
      zero, a negative number or NaN. Minutes are not folded into hours. The
      text reads back as minutes and seconds below 60 that together make the
      whole seconds of the input, and the minutes carry no leading zero. */
  function FormatMillis(millis: JsNumber): (r: string)
    ensures var c := ParseClock(r);
            c.Some? && c.value.1 < 60 && c.value.0 * 60 + c.value.1 == WholeSeconds(millis)
    ensures |r| >= 4 && (r[0] == '0' ==> r[1] == ':')
  {
    var totalSeconds := WholeSeconds(millis);
    var seconds := totalSeconds % 60;
    var minutes := totalSeconds / 60;
    ClockReadsBack(minutes, seconds);
    var m := NatToString(minutes);
    assert m[0] == '0' ==> m == [DigitChar(0)];
    m + ":" + TwoDigits(seconds)
  }

  /** The seconds of the clock, zero-padded to two digits. */
  function TwoDigits(seconds: nat): string
  {
    (if seconds < 10 then "0" else "") + NatToString(seconds)
  }

  /** The whole seconds a clock reading stands for: none for NaN, zero or a
      negative number, else the milliseconds rounded down to seconds. */
  function WholeSeconds(millis: JsNumber): nat
  {
    if millis.NaN? || millis.value <= 0 then 0 else millis.value / 1000
  }

  /** Reads a clock "m:ss" back as (minutes, seconds): any run of digits, a
      colon, then exactly two digits. */
  function ParseClock(s: string): Option<(nat, nat)>
  {
    if |s| >= 4 && s[|s| - 3] == ':' && AllDigits(s[..|s| - 3]) && AllDigits(s[|s| - 2..]) then
      Some((DigitsValue(s[..|s| - 3]), DigitsValue(s[|s| - 2..])))
    else
      None
  }

  lemma {:induction false} NatToStringBelowHundred(n: nat)
    requires 10 <= n < 100
    ensures NatToString(n) == [DigitChar(n / 10), DigitChar(n % 10)]
  {
    assert NatToString(n / 10) == [DigitChar(n / 10)];
  }

  /** A clock built from minutes and seconds below 60 reads back as them. */
  lemma ClockReadsBack(minutes: nat, seconds: nat)
    requires seconds < 60
    ensures ParseClock(NatToString(minutes) + ":" + TwoDigits(seconds)) == Some((minutes, seconds))
  {
    var s := NatToString(minutes) + ":" + TwoDigits(seconds);
    var two := TwoDigits(seconds);
    if seconds < 10 {
      assert NatToString(seconds) == [DigitChar(seconds)];
      assert DigitsValue(two) == seconds by {
        assert two[..1] == "0" && DigitsValue("0") == 0;
      }
    } else {
      NatToStringBelowHundred(seconds);
      DigitsValueOfNatToString(seconds);
    }
    assert |two| == 2 && AllDigits(two);
    assert s[..|s| - 3] == NatToString(minutes);
    assert s[|s| - 2..] == two;
    assert |s| >= 4 && s[|s| - 3] == ':';
    DigitsValueOfNatToString(minutes);
    assert DigitsValue(two) == seconds;
  }

  /** Under a second, and for zero, a negative number or NaN, the clock
      reads "0:00". */
  lemma FormatMillisNoSeconds()
    ensures FormatMillis(Whole(0)) == "0:00"
    ensures FormatMillis(Whole(-5)) == "0:00"
    ensures FormatMillis(NaN) == "0:00"
    ensures FormatMillis(Whole(999)) == "0:00"
  {
    assert TwoDigits(0) == "0" + NatToString(0) == "00";
  }

  /** 65 seconds read "1:05", with the seconds padded. */
  lemma FormatMillisPadsSeconds()
    ensures FormatMillis(Whole(65000)) == "1:05"
  {
    assert TwoDigits(5) == "0" + NatToString(5) == "05";
  }

  /** An hour reads "60:00": minutes never fold into hours. */
  lemma FormatMillisNoHours()
    ensures FormatMillis(Whole(3600000)) == "60:00"
  {
    assert TwoDigits(0) == "0" + NatToString(0) == "00";
    assert NatToString(60) == NatToString(6) + [DigitChar(0)] == "60";
  }

  // ---------------------------------------------------------------------------
  // The "edited" rename rule

  /** The name has the form `edited(<digits>)-<rest>` with at least one digit. */
  ghost predicate CountedForm(name: string, digits: string, rest: string)
  {
    |digits| > 0 && AllDigits(digits) && name == "edited(" + digits + ")-" + rest
  }

  /** A name neither of the two "edited" forms applies to. */
  ghost predicate IsPlainName(name: string)
  {
    !StartsWith(name, "edited-") && forall digits, rest :: !CountedForm(name, digits, rest)
  }

  /** The length of the run of decimal digits at the head of s. */
  function DigitRun(s: string): (k: nat)
    ensures k <= |s| && AllDigits(s[..k])
    ensures k < |s| ==> !IsDigit(s[k])
  {
    if s == [] || !IsDigit(s[0]) then 0
    else
      var k := 1 + DigitRun(s[1..]);
      assert s[..k] == [s[0]] + s[1..][..k - 1];
      k
  }

  lemma {:induction false} DigitRunOfDigits(digits: string, tail: string)
    requires AllDigits(digits)
    requires tail == [] || !IsDigit(tail[0])
    ensures DigitRun(digits + tail) == |digits|
  {
    if digits != [] {
      assert (digits + tail)[1..] == digits[1..] + tail;
      DigitRunOfDigits(digits[1..], tail);
    }
  }

  /** The number of digits matched by `/^edited\((\d+)\)-/`, or 0 when the
      pattern does not match. */
  function CountedDigits(name: string): (k: nat)
    ensures k > 0 ==> 9 + k <= |name| && CountedForm(name, name[7..7 + k], name[9 + k..])
  {
    if StartsWith(name, "edited(") then
      var k := DigitRun(name[7..]);
      if k > 0 && StartsWith(name[7 + k..], ")-") then
        assert name[7..][..k] == name[7..7 + k];
        assert name == name[..7] + name[7..7 + k] + name[7 + k..9 + k] + name[9 + k..];
        k
      else 0
    else 0
  }

  /** The match of the counted pattern is the only way to read the name in the
      counted form. */
  lemma CountedDigitsComplete(name: string, digits: string, rest: string)
    requires CountedForm(name, digits, rest)
    ensures CountedDigits(name) == |digits|
  {
    assert name[..7] == "edited(";
    assert name[7..] == digits + (")-" + rest);
    DigitRunOfDigits(digits, ")-" + rest);
    assert name[7 + |digits|..] == ")-" + rest;
  }

  /** A name with a counter is not plain. */
  lemma CountedNotPlain(digits: string, rest: string)
    requires |digits| > 0 && AllDigits(digits)
    ensures !IsPlainName("edited(" + digits + ")-" + rest)
  {
    assert CountedForm("edited(" + digits + ")-" + rest, digits, rest);
  }

  /** A name with the `edited-` prefix is not plain. */
  lemma PrefixedNotPlain(rest: string)
    ensures !IsPlainName("edited-" + rest)
  {
    assert ("edited-" + rest)[..7] == "edited-";
  }

  /** The rename `handleSaveEdit` gives the selected audio. A renamed file is
      never plain again: the next save moves its counter. */
  function Rename(name: string): (r: string)
    ensures !IsPlainName(r)
  {
    var k := CountedDigits(name);
    if k > 0 then
      CountedNotPlain(NatToString(DigitsValue(name[7..7 + k]) + 1), name[9 + k..]);
      "edited(" + NatToString(DigitsValue(name[7..7 + k]) + 1) + ")-" + name[9 + k..]
    else if StartsWith(name, "edited-") then
      CountedNotPlain("2", name[7..]);
      assert "edited(" + "2" + ")-" + name[7..] == "edited(2)-" + name[7..];
      "edited(2)-" + name[7..]
    else
      PrefixedNotPlain(name);
      "edited-" + name
  }

  /** `edited(k)-rest` becomes `edited(k+1)-rest`; the count is read as
      `parseInt` reads it, so leading zeros are dropped. */
  lemma RenameCounted(digits: string, rest: string)
    requires |digits| > 0 && AllDigits(digits)
    ensures Rename("edited(" + digits + ")-" + rest)
         == "edited(" + NatToString(DigitsValue(digits) + 1) + ")-" + rest
  {
    var name := "edited(" + digits + ")-" + rest;
    assert CountedForm(name, digits, rest);
    CountedDigitsComplete(name, digits, rest);
    var k := |digits|;
    assert name[7..7 + k] == digits;
    assert name[9 + k..] == rest;
  }

  /** `edited-rest` becomes `edited(2)-rest`. */
  lemma RenameSimple(rest: string)
    ensures Rename("edited-" + rest) == "edited(2)-" + rest
  {
    var name := "edited-" + rest;
    assert name[6] == '-';
    assert !StartsWith(name, "edited(");
    assert name[..7] == "edited-" && name[7..] == rest;
  }

  /** Any other name gets the prefix `edited-`. */
  lemma RenamePlain(name: string)
    requires IsPlainName(name)
    ensures Rename(name) == "edited-" + name
  {
  }

  /** A name that does not start with the letter e is plain. */
  lemma PlainUnlessLeadingE(name: string)
    requires name == [] || name[0] != 'e'
    ensures IsPlainName(name)
  {
    forall digits, rest
      ensures !CountedForm(name, digits, rest)
    {
      assert ("edited(" + digits + ")-" + rest)[0] == 'e';
    }
  }

  /** The name after n saves of the editor. */
  function RenameTimes(name: string, n: nat): string
  {
    if n == 0 then name else Rename(RenameTimes(name, n - 1))
  }

  /** Saving a plain name n times gives `edited-<name>` once, then
      `edited(n)-<name>`: the counter goes up by one per save and the original
      name is kept unchanged after the prefix. */
  lemma {:induction false} RenameChain(name: string, n: nat)
    requires IsPlainName(name) && n >= 1
    ensures n == 1 ==> RenameTimes(name, n) == "edited-" + name
    ensures n >= 2 ==> RenameTimes(name, n) == "edited(" + NatToString(n) + ")-" + name
  {
    if n == 1 {
      RenamePlain(name);
    } else if n == 2 {
      RenameChain(name, 1);
      RenameSimple(name);
    } else {
      RenameChain(name, n - 1);
      RenameCounted(NatToString(n - 1), name);
      DigitsValueOfNatToString(n - 1);
    }
  }

  /** Leading zeros of the counter are not kept: "edited(007)-" becomes
      "edited(8)-". */
  lemma RenameDropsLeadingZeros(rest: string)
    ensures Rename("edited(007)-" + rest) == "edited(8)-" + rest
  {
    RenameCounted("007", rest);
    assert "edited(" + "007" + ")-" + rest == "edited(007)-" + rest;
    assert DigitsValue("007") == 7 by {
      assert "007"[..2] == "00" && "00"[..1] == "0";
    }
    assert "edited(" + NatToString(8) + ")-" + rest == "edited(8)-" + rest;
  }

  // ---------------------------------------------------------------------------
  // Names of new files

  /** A picked audio keeps its name; one without a name is `audio-<now>.mp3`.
      Either way the file has a name. */
  function PickedAudioName(assetName: Option<string>, now: nat): (r: string)
    ensures r != ""
    ensures Truthy(assetName) ==> r == assetName.value
  {
    OrElse(assetName, "audio-" + NatToString(now) + ".mp3")
  }

  /** A picked image keeps its file name; one without is `image-<now>.jpg`.
      Either way the image has a name. */
  function PickedImageName(fileName: Option<string>, now: nat): (r: string)
    ensures r != ""
    ensures Truthy(fileName) ==> r == fileName.value
  {
    OrElse(fileName, "image-" + NatToString(now) + ".jpg")
  }

  /** A finished recording is named `recording-<now>.m4a`. */
  function RecordingName(now: nat): (r: string)
    ensures StartsWith(r, "recording-")
  {
    var r := "recording-" + NatToString(now) + ".m4a";
    assert r[..10] == "recording-";
    r
  }

  /** The timestamp is recovered from a `<prefix><now><suffix>` name. */
  lemma {:induction false} StampedNameInjective(prefix: string, suffix: string, a: nat, b: nat)
    requires prefix + NatToString(a) + suffix == prefix + NatToString(b) + suffix
    ensures a == b
  {
    var x, y := prefix + NatToString(a) + suffix, prefix + NatToString(b) + suffix;
    assert |NatToString(a)| == |NatToString(b)|;
    assert x[|prefix|..|x| - |suffix|] == NatToString(a);
    assert y[|prefix|..|y| - |suffix|] == NatToString(b);
    DigitsValueOfNatToString(a);
    DigitsValueOfNatToString(b);
  }

  /** Names made up from different timestamps differ, so files picked without
      a name or recorded at different milliseconds never share a name. */
  lemma FallbackNamesDistinct(a: nat, b: nat)
    requires a != b
    ensures PickedAudioName(None, a) != PickedAudioName(None, b)
    ensures PickedImageName(None, a) != PickedImageName(None, b)
    ensures RecordingName(a) != RecordingName(b)
  {
    if PickedAudioName(None, a) == PickedAudioName(None, b) {
      StampedNameInjective("audio-", ".mp3", a, b);
    }
    if PickedImageName(None, a) == PickedImageName(None, b) {
      StampedNameInjective("image-", ".jpg", a, b);
    }
    if RecordingName(a) == RecordingName(b) {
      StampedNameInjective("recording-", ".m4a", a, b);
    }
  }
}
