/** `FrequencyControlDrawer`: the two-line inspector for a frequency field. The first line edits
    Hz (slider, then number field) and writes the value back clamped to [minHz, maxHz]; the second
    edits the nearest MIDI note, clamped to [minMidi, maxMidi], snaps Hz to that note when the
    note changed, and labels the result with its note name. */
module FrequencyControlDrawer {
  import opened Common
  import opened Text

  /** Note names of the twelve pitch classes, C first. */
  const NoteNames: seq<string> := ["C", "C#", "D", "D#", "E", "F", "F#", "G", "G#", "A", "A#", "B"]

  /** `FrequencyControlAttribute`: the ranges of one field. */
  datatype FrequencyControl = FrequencyControl(minHz: real, maxHz: real, minMidi: int, maxMidi: int)

  /** The serialized float the drawer edits in place (`SerializedProperty.floatValue`). */
  class FloatProperty {
    var floatValue: real

    constructor (v: real)
      ensures floatValue == v
    {
      floatValue := v;
    }
  }

  /** C#'s integer division, which truncates toward zero: the remainder `a - q * b` is smaller
      than `b` in size and never of the opposite sign to `a`. */
  function TruncDiv(a: int, b: int): (q: int)
    requires b > 0
    ensures a >= 0 ==> 0 <= a - q * b < b
    ensures a < 0 ==> -b < a - q * b <= 0
  {
    if a >= 0 then a / b else -((-a) / b)
  }

  /** `MidiToNoteName` as written: pitch class `|midi| % 12`, octave `midi / 12 - 1` truncated.
      For negative notes the two disagree with each other and with the pitch. */
  function NoteNameAsWritten(midi: int): (name: string)
    ensures |name| >= 2
  {
    var note := (if midi < 0 then -midi else midi) % 12;
    NoteNames[note] + IntToString(TruncDiv(midi, 12) - 1)
  }

  /** Pitch class and octave of a MIDI note, both floored: note 0 is C-1 and 60 is C4. */
  function NoteParts(midi: int): (p: (int, int))
    ensures 0 <= p.0 < 12
    ensures midi == (p.1 + 1) * 12 + p.0
  {
    (midi % 12, midi / 12 - 1)
  }

  /** `MidiToNoteName` with the pitch class and octave taken by floor division, as the note
      numbering means them. */
  function MidiToNoteName(midi: int): (name: string)
    ensures |name| >= 2
  {
    var p := NoteParts(midi);
    NoteNames[p.0] + IntToString(p.1)
  }

  /** For the note numbers the shipped ranges allow (0 and up), both readings agree. */
  lemma NoteNameAgreesOnNonNegative(midi: int)
    requires midi >= 0
    ensures NoteNameAsWritten(midi) == MidiToNoteName(midi)
  {
  }

  lemma NoteNameExamples()
    ensures MidiToNoteName(60) == "C4" && MidiToNoteName(69) == "A4" && MidiToNoteName(0) == "C-1"
  {
    assert NatToString(4) == "4";
    assert NatToString(1) == "1";
  }

  /** Twelve semitones up: same pitch class, next octave. */
  lemma OctaveUp(midi: int)
    ensures NoteParts(midi + 12) == (NoteParts(midi).0, NoteParts(midi).1 + 1)
  {
    var p := NoteParts(midi);
    assert midi + 12 == (p.1 + 2) * 12 + p.0;
  }

  /** Distinct notes get distinct names. */
  lemma NoteNameInjective(a: int, b: int)
    requires MidiToNoteName(a) == MidiToNoteName(b)
    ensures a == b
  {
    var p, q := NoteParts(a), NoteParts(b);
    var na, nb := NoteNames[p.0], NoteNames[q.0];
    var oa, ob := IntToString(p.1), IntToString(q.1);
    assert na + oa == nb + ob;
    NoteNameShape(p.0);
    NoteNameShape(q.0);
    assert |na| == |nb| by {
      assert (na + oa)[1] == (nb + ob)[1];
    }
    assert na == (na + oa)[..|na|] == (nb + ob)[..|nb|] == nb;
    assert oa == (na + oa)[|na|..] == (nb + ob)[|nb|..] == ob;
    IntToStringInjective(p.1, q.1);
  }

  /** A note name is a letter, possibly followed by a sharp sign; no two are equal. */
  lemma NoteNameShape(n: int)
    requires 0 <= n < 12
    ensures |NoteNames[n]| == 1 || (|NoteNames[n]| == 2 && NoteNames[n][1] == '#')
    ensures forall m :: 0 <= m < 12 && NoteNames[m] == NoteNames[n] ==> m == n
  {
  }

  /** The as-written name of -1 (a B) reads "C#-1", the name it also gives note 1; twelve
      semitones up from -1 the letter changes. */
  lemma NoteNameAsWrittenMisnamesNegative()
    ensures NoteNameAsWritten(-1) == "C#-1" && NoteNameAsWritten(1) == "C#-1"
    ensures NoteNameAsWritten(11) == "B-1"
    ensures MidiToNoteName(-1) == "B-2"
  {
    assert NatToString(1) == "1";
    assert NatToString(2) == "2";
    assert NatToString(0) == "0";
  }

  /** `MidiToFrequency`: equal temperament around A4 = 440 Hz, with the host's `pow`. */
  function MidiToFrequency(pow: (real, real) -> real, midi: int): real {
    440.0 * pow(2.0, (midi - 69) as real / 12.0)
  }

  /** `FrequencyToMidi`: the nearest note, with Hz floored at 0.0001 before the host's `log2`. */
  function FrequencyToMidi(log2: real -> real, hz: real): int {
    RoundToInt(69.0 + 12.0 * log2(MaxR(0.0001, hz) / 440.0))
  }

  /** The Hz line on values: the clamped value, replaced by the slider's and then the field's
      value when the user moved them, written back clamped. */
  function EditedHz(current: real, minHz: real, maxHz: real, slider: Option<real>, field: Option<real>): (hz: real)
    ensures minHz <= maxHz ==> minHz <= hz <= maxHz
    ensures field.Some? ==> hz == ClampR(field.value, minHz, maxHz)
    ensures field.None? && slider.Some? ==> hz == ClampR(slider.value, minHz, maxHz)
    ensures field.None? && slider.None? && minHz <= current <= maxHz ==> hz == current
  {
    var hz0 := ClampR(current, minHz, maxHz);
    var hz1 := if slider.Some? then slider.value else hz0;
    var hz2 := if field.Some? then field.value else hz1;
    ClampR(hz2, minHz, maxHz)
  }

  /** The MIDI line's edit: the slider's value rounded, then the field's value, clamped. */
  function EditedMidi(midi: int, minMidi: int, maxMidi: int, slider: Option<real>, field: Option<int>): (m: int)
    ensures minMidi <= maxMidi ==> minMidi <= m <= maxMidi
    ensures field.Some? ==> m == ClampI(field.value, minMidi, maxMidi)
    ensures field.None? && slider.Some? ==> m == ClampI(RoundToInt(slider.value), minMidi, maxMidi)
    ensures field.None? && slider.None? && minMidi <= midi <= maxMidi ==> m == midi
  {
    var m0 := if slider.Some? then RoundToInt(slider.value) else midi;
    var m1 := if field.Some? then field.value else m0;
    ClampI(m1, minMidi, maxMidi)
  }

  /** `DrawHzLine`. */
  method DrawHzLine(hzProp: FloatProperty, minHz: real, maxHz: real, slider: Option<real>, field: Option<real>)
    modifies hzProp
    ensures hzProp.floatValue == EditedHz(old(hzProp.floatValue), minHz, maxHz, slider, field)
  {
    var hz := ClampR(hzProp.floatValue, minHz, maxHz);
    if slider.Some? {
      hz := slider.value;
    }
    if field.Some? {
      hz := field.value;
    }
    hzProp.floatValue := ClampR(hz, minHz, maxHz);
  }

  /** `DrawMidiLine`: returns the info label, the note name followed by the rounded Hz. */
  method DrawMidiLine(hzProp: FloatProperty, currentHz: real, a: FrequencyControl,
                      slider: Option<real>, field: Option<int>,
                      pow: (real, real) -> real, log2: real -> real)
    returns (info: string)
    modifies hzProp
    ensures var midi := ClampI(FrequencyToMidi(log2, currentHz), a.minMidi, a.maxMidi);
            var newMidi := EditedMidi(midi, a.minMidi, a.maxMidi, slider, field);
            hzProp.floatValue == if newMidi == midi then old(hzProp.floatValue)
                                 else ClampR(MidiToFrequency(pow, newMidi), a.minHz, a.maxHz)
    ensures info == MidiToNoteName(ShownMidi(hzProp.floatValue, a, log2)) + " ("
                    + IntToString(RoundToInt(hzProp.floatValue)) + "Hz)"
  {
    var midi := ClampI(FrequencyToMidi(log2, currentHz), a.minMidi, a.maxMidi);
    var newMidi := midi;
    if slider.Some? {
      newMidi := RoundToInt(slider.value);
    }
    if field.Some? {
      newMidi := field.value;
    }
    newMidi := ClampI(newMidi, a.minMidi, a.maxMidi);
    if newMidi != midi {
      var snappedHz := MidiToFrequency(pow, newMidi);
      hzProp.floatValue := ClampR(snappedHz, a.minHz, a.maxHz);
    }
    var showMidi := ClampI(FrequencyToMidi(log2, ClampR(hzProp.floatValue, a.minHz, a.maxHz)), a.minMidi, a.maxMidi);
    info := MidiToNoteName(showMidi) + " (" + IntToString(RoundToInt(hzProp.floatValue)) + "Hz)";
  }

  /** The note the MIDI line shows for a stored value. */
  function ShownMidi(hz: real, a: FrequencyControl, log2: real -> real): (m: int)
    ensures a.minMidi <= a.maxMidi ==> a.minMidi <= m <= a.maxMidi
  {
    ClampI(FrequencyToMidi(log2, ClampR(hz, a.minHz, a.maxHz)), a.minMidi, a.maxMidi)
  }

  /** With a `log2` that inverts `pow(2, ·)` at the note's exponent, the frequency of a note
      converts back to that note. */
  lemma NoteFrequencyRoundTrip(pow: (real, real) -> real, log2: real -> real, midi: int)
    requires log2(pow(2.0, (midi - 69) as real / 12.0)) == (midi - 69) as real / 12.0
    requires MidiToFrequency(pow, midi) >= 0.0001
    ensures FrequencyToMidi(log2, MidiToFrequency(pow, midi)) == midi
  {
    var x := (midi - 69) as real / 12.0;
    var hz := MidiToFrequency(pow, midi);
    assert MaxR(0.0001, hz) / 440.0 == pow(2.0, x);
    assert 69.0 + 12.0 * log2(MaxR(0.0001, hz) / 440.0) == midi as real;
  }

  /** When the MIDI line snaps to a note in [minMidi, maxMidi] whose frequency lies in
      [minHz, maxHz], the label it draws next names that same note. */
  lemma SnappedNoteIsShown(a: FrequencyControl, pow: (real, real) -> real, log2: real -> real, midi: int)
    requires a.minMidi <= midi <= a.maxMidi
    requires a.minHz <= MidiToFrequency(pow, midi) <= a.maxHz
    requires log2(pow(2.0, (midi - 69) as real / 12.0)) == (midi - 69) as real / 12.0
    requires MidiToFrequency(pow, midi) >= 0.0001
    ensures ShownMidi(ClampR(MidiToFrequency(pow, midi), a.minHz, a.maxHz), a, log2) == midi
  {
    NoteFrequencyRoundTrip(pow, log2, midi);
  }

  /** `OnGUI`: a non-float property is left alone; otherwise the Hz line, then the MIDI line
      for the clamped value. With ordered ranges the stored frequency ends in [minHz, maxHz]. */
  method OnGUI(hzProp: FloatProperty, isFloat: bool, a: FrequencyControl,
               hzSlider: Option<real>, hzField: Option<real>, midiSlider: Option<real>, midiField: Option<int>,
               pow: (real, real) -> real, log2: real -> real)
    returns (info: Option<string>)
    modifies hzProp
    ensures !isFloat ==> hzProp.floatValue == old(hzProp.floatValue) && info.None?
    ensures isFloat && a.minHz <= a.maxHz ==> a.minHz <= hzProp.floatValue <= a.maxHz && info.Some?
    ensures (isFloat && hzSlider.None? && hzField.None? && midiSlider.None? && midiField.None?
             && a.minMidi <= a.maxMidi && a.minHz <= old(hzProp.floatValue) <= a.maxHz)
            ==> hzProp.floatValue == old(hzProp.floatValue)
  {
    if !isFloat {
      return None;
    }
    DrawHzLine(hzProp, a.minHz, a.maxHz, hzSlider, hzField);
    var hz := ClampR(hzProp.floatValue, a.minHz, a.maxHz);
    var s := DrawMidiLine(hzProp, hz, a, midiSlider, midiField, pow, log2);
    info := Some(s);
  }
}
