/**
 * The payload extractor of the vilos path: the embedded `config.media`
 * object literal is cut out of the rendered page by marker arithmetic,
 * exactly as the source does it with `indexOf` and `substr`.
 */
module Extractor {
  import opened Wrappers
  import opened JsString

  /** The marker searched for; it is 14 characters long. */
  const Marker: string := "config.media ="
  /** The offset added to the marker's index: the marker and one separator. */
  const Skip: int := 15
  /** The end of the payload is found at the first blank line. */
  const Terminator: string := "\n\n"

  /**
   * Where the scan begins: 15 past the marker's index, clamped to the page.
   * A missing marker (index -1) does not stop the scan: it starts at 14.
   */
  function PayloadStart(page: string): (s: nat)
    ensures s <= |page|
  {
    Min(IndexOf(page, Marker) + Skip, |page|)
  }

  /**
   * The payload: the source's two `indexOf` and two `substr` calls. What it
   * is, is stated by `ExtractCharacterization`, `ExtractIsSubstring` and
   * `ExtractHasNoTerminator` below.
   */
  function Extract(page: string): (r: string)
    ensures |r| <= |page| - PayloadStart(page)
  {
    var startIndex := IndexOf(page, Marker);
    var initialConfig := Substr(page, startIndex + Skip, None);
    var endIndex := IndexOf(initialConfig, Terminator);
    Substr(initialConfig, 0, Some(endIndex - 1))
  }

  /**
   * The payload is the part of the page from the scan start up to, but
   * excluding, the character before the first blank line after it; it is
   * empty when there is no blank line or the blank line is at offset 0 or 1.
   */
  lemma ExtractCharacterization(page: string)
    ensures var s := PayloadStart(page);
            var e := IndexOf(page[s..], Terminator);
            Extract(page) == if e <= 1 then "" else page[s..s + e - 1]
  {
  }

  /** The payload is a substring of the page, found at the scan start. */
  lemma ExtractIsSubstring(page: string)
    ensures PayloadStart(page) + |Extract(page)| <= |page|
    ensures page[PayloadStart(page)..PayloadStart(page) + |Extract(page)|] == Extract(page)
  {
  }

  /** The payload never contains a blank line. */
  lemma ExtractHasNoTerminator(page: string)
    ensures !Contains(Extract(page), Terminator)
  {
    ExtractCharacterization(page);
    var s := PayloadStart(page);
    var rest := page[s..];
    var e := IndexOf(rest, Terminator);
    var r := Extract(page);
    if e > 1 {
      assert r == rest[..e - 1];
      forall j | 0 <= j <= |r| && OccursAt(r, Terminator, j)
        ensures false
      {
        assert rest[j..j + 2] == r[j..j + 2];
        assert OccursAt(rest, Terminator, j);
      }
    }
  }

  /** Without a blank line after the scan start the payload is empty. */
  lemma ExtractWithoutTerminatorIsEmpty(page: string)
    requires !Contains(page[PayloadStart(page)..], Terminator)
    ensures Extract(page) == ""
  {
  }

  /** A page without the marker is scanned from offset 14 (or its end). */
  lemma MissingMarkerScansFrom14(page: string)
    requires !Contains(page, Marker)
    ensures PayloadStart(page) == Min(14, |page|)
  {
  }

  /** The scan of a typical page: the trailing `;` before the blank line is dropped. */
  lemma ExtractExample()
    ensures Extract("config.media = {};\n\nx") == "{}"
  {
    var page := "config.media = {};\n\nx";
    assert page[0..14] == Marker;
    assert IndexOf(page, Marker) == 0;
    var rest := page[15..];
    assert rest == "{};\n\nx";
    assert rest[3..5] == Terminator;
    assert IndexOfFrom(rest, Terminator, 3) == 3;
    assert rest[2..4][0] == ';' && rest[1..3][0] == '}' && rest[0..2][0] == '{';
    assert IndexOfFrom(rest, Terminator, 2) == 3;
    assert IndexOfFrom(rest, Terminator, 1) == 3;
    assert IndexOf(rest, Terminator) == 3;
    ExtractCharacterization(page);
  }

  /** A page in which no possible start of the marker holds its first character does not contain it. */
  lemma AbsentFirstCharacter(page: string)
    requires forall i :: 0 <= i <= |page| - |Marker| ==> page[i] != Marker[0]
    ensures !Contains(page, Marker)
  {
    forall i | 0 <= i <= |page|
      ensures !OccursAt(page, Marker, i)
    {
      if i + |Marker| <= |page| {
        assert page[i..i + |Marker|][0] == page[i];
      }
    }
  }

  /**
   * A page without the marker is not answered with an empty-object
   * sentinel: whatever stands from offset 14 to the first blank line is
   * returned.
   */
  lemma MissingMarkerExample()
    ensures Extract("0123456789abdeXY;\n\nz") == "XY"
  {
    var page := "0123456789abdeXY;\n\nz";
    assert |page| - |Marker| == 6;
    assert page[0] == '0' && page[1] == '1' && page[2] == '2' && page[3] == '3';
    assert page[4] == '4' && page[5] == '5' && page[6] == '6';
    AbsentFirstCharacter(page);
    var rest := page[14..];
    assert rest == "XY;\n\nz";
    assert rest[3..5] == Terminator;
    assert rest[2..4][0] == ';' && rest[1..3][0] == 'Y' && rest[0..2][0] == 'X';
    assert IndexOfFrom(rest, Terminator, 2) == 3;
    assert IndexOfFrom(rest, Terminator, 1) == 3;
    assert IndexOf(rest, Terminator) == 3;
    ExtractCharacterization(page);
  }
}
