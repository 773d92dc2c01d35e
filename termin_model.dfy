/** The server's appointment slot (`Termin`): its fields, their defaults,
    the two status values, the uniqueness of (datum, uhrzeit), and its text
    form `"{datum} {uhrzeit} - {titel}"`. */
module TerminModel {
  import opened Wrappers
  import opened Text

  datatype TerminStatus = Frei | Gebucht

  /** The stored value of each status choice. */
  function StatusValue(s: TerminStatus): (v: string)
    ensures s == Frei <==> v == "frei"
    ensures s == Gebucht <==> v == "gebucht"
  {
    match s
    case Frei => "frei"
    case Gebucht => "gebucht"
  }

  /** The choice a stored value denotes; any other value is not a choice. */
  function ParseStatus(v: string): (s: Option<TerminStatus>)
    ensures s.Some? ==> StatusValue(s.value) == v
    ensures v == "frei" || v == "gebucht" ==> s.Some?
  {
    if v == "frei" then Some(Frei) else if v == "gebucht" then Some(Gebucht) else None
  }

  lemma {:induction false} StatusRoundTrip(s: TerminStatus)
    ensures ParseStatus(StatusValue(s)) == Some(s)
  {
    match s
    case Frei =>
    case Gebucht => assert StatusValue(s) != "frei";
  }

  datatype Date = Date(year: int, month: int, day: int)

  datatype Time = Time(hour: int, minute: int, second: int)

  predicate ValidDate(d: Date)
  {
    1 <= d.year <= 9999 && 1 <= d.month <= 12 && 1 <= d.day <= 31
  }

  predicate ValidTime(t: Time)
  {
    0 <= t.hour <= 23 && 0 <= t.minute <= 59 && 0 <= t.second <= 59
  }

  /** One row of the table. `beschreibung` and the patient fields may be
      null (`None`) or blank. */
  datatype Termin = Termin(
    id: int,
    titel: string,
    beschreibung: Option<string>,
    datum: Date,
    uhrzeit: Time,
    dauerMinuten: int,
    patientName: Option<string>,
    patientEmail: Option<string>,
    patientTelefon: Option<string>,
    status: TerminStatus)

  const DefaultDauerMinuten := 30
  const DefaultStatus := Frei

  /** A new row with every defaulted field left to its default. */
  function NewTermin(id: int, titel: string, datum: Date, uhrzeit: Time): (t: Termin)
    ensures t.dauerMinuten == 30 && t.status == Frei
    ensures t.beschreibung == None && t.patientName == None && t.patientEmail == None && t.patientTelefon == None
    ensures t.id == id && t.titel == titel && t.datum == datum && t.uhrzeit == uhrzeit
  {
    Termin(id, titel, None, datum, uhrzeit, DefaultDauerMinuten, None, None, None, DefaultStatus)
  }

  /** The pair that `unique_together` constrains. */
  function Slot(t: Termin): (Date, Time)
  {
    (t.datum, t.uhrzeit)
  }

  predicate UniqueSlots(rows: seq<Termin>)
  {
    forall i, j :: 0 <= i < j < |rows| ==> Slot(rows[i]) != Slot(rows[j])
  }

  /** `s` left-padded with zeros to `n` characters. */
  function PadZeros(s: string, n: nat): (r: string)
    ensures |r| == if |s| >= n then |s| else n
    ensures |s| >= n ==> r == s
    decreases n - |s|
  {
    if |s| >= n then s else PadZeros("0" + s, n)
  }

  /** `str(date)`: `YYYY-MM-DD`. */
  function DateText(d: Date): string
    requires ValidDate(d)
  {
    PadZeros(NatToString(d.year), 4) + "-" + Pad2(d.month) + "-" + Pad2(d.day)
  }

  /** `str(time)`: `HH:MM:SS`. */
  function TimeText(t: Time): string
    requires ValidTime(t)
  {
    Pad2(t.hour) + ":" + Pad2(t.minute) + ":" + Pad2(t.second)
  }

  /** `__str__` */
  function Str(t: Termin): string
    requires ValidDate(t.datum) && ValidTime(t.uhrzeit)
  {
    DateText(t.datum) + " " + TimeText(t.uhrzeit) + " - " + t.titel
  }

  lemma {:induction false} YearDigits(y: nat)
    requires 1 <= y <= 9999
    ensures |NatToString(y)| <= 4
  {
    if y >= 10 {
      assert NatToString(y) == NatToString(y / 10) + [DigitChar(y % 10)];
      if y / 10 >= 10 {
        assert NatToString(y / 10) == NatToString(y / 100) + [DigitChar(y / 10 % 10)];
        if y / 100 >= 10 {
          assert NatToString(y / 100) == NatToString(y / 1000) + [DigitChar(y / 100 % 10)];
        }
      }
    }
  }

  lemma DateTextLength(d: Date)
    requires ValidDate(d)
    ensures |DateText(d)| == 10
  {
    YearDigits(d.year);
    Pad2Value(d.month);
    Pad2Value(d.day);
  }

  lemma TimeTextLength(t: Time)
    requires ValidTime(t)
    ensures |TimeText(t)| == 8
  {
    Pad2Value(t.hour);
    Pad2Value(t.minute);
    Pad2Value(t.second);
  }

  /** The text form has a fixed layout: 10 characters of date, a space,
      8 of time, " - ", then the title. So it shows the slot first and ends
      with exactly the title. */
  lemma {:induction false} StrLayout(t: Termin)
    requires ValidDate(t.datum) && ValidTime(t.uhrzeit)
    ensures var s := Str(t);
      && |s| == 22 + |t.titel|
      && s[..10] == DateText(t.datum) && s[10] == ' '
      && s[11..19] == TimeText(t.uhrzeit)
      && s[19..22] == " - " && s[22..] == t.titel
  {
    DateTextLength(t.datum);
    TimeTextLength(t.uhrzeit);
    var d, h := DateText(t.datum), TimeText(t.uhrzeit);
    var s := Str(t);
    assert s == d + " " + h + " - " + t.titel;
    assert s[..10] == d;
    assert s[11..19] == h;
  }
}
