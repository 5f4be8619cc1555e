/**
 * app/properties/new/page.tsx: the two-step property intake form, its step
 * guard, the primary-image size check and the creation request it submits.
 */
module NewPropertyPage {
  import opened Wrappers
  import Seqs
  import Text
  import opened PropertyTypes

  /** `defaultForm`, with the current year (read from the clock) as construction year. */
  function DefaultForm(currentYear: real): CreatePropertyRequest {
    CreatePropertyRequest(
      None, "", 0.0, 0.0, "PEN", currentYear, STANDARD, false, true, None, [],
      APARTMENT, 2.0, 1.0, Some(0.0), Some(1.0), false, 0.0, "PEN", 0.0, 0.0, 0.0,
      false, false, None)
  }

  /** `canGoNextStep1`: a code that is not blank and positive areas, bedrooms and bathrooms. */
  predicate CanGoNextStep1(f: CreatePropertyRequest) {
    |Text.Trim(f.propertyCode)| > 0 && f.builtArea > 0.0 && f.totalArea > 0.0 && f.bedrooms > 0.0 && f.bathrooms > 0.0
  }

  /** The default form cannot leave step 1: its code is empty and its areas are 0. */
  lemma DefaultFormStaysOnStep1(year: real)
    ensures !CanGoNextStep1(DefaultForm(year))
  {
  }

  predicate NonEmpty(s: string) {
    s != ""
  }

  /** `featuresInput.split(",").map(x => x.trim()).filter(Boolean)`. */
  function ParseFeatures(input: string): (r: seq<string>)
    ensures forall i :: 0 <= i < |r| ==> r[i] != [] && Text.Tight(r[i]) && ',' !in r[i]
  {
    var pieces := Seqs.Map(Text.Trim, Text.Split(input, ','));
    CleanPieces(input);
    var r := Seqs.Keep(pieces, NonEmpty);
    assert forall i :: 0 <= i < |r| ==> r[i] in r;
    r
  }

  /** Every trimmed piece of the split is tight and has no comma. */
  lemma CleanPieces(input: string)
    ensures forall x :: x in Seqs.Map(Text.Trim, Text.Split(input, ',')) ==> Text.Tight(x) && ',' !in x
  {
    var parts := Text.Split(input, ',');
    var pieces := Seqs.Map(Text.Trim, parts);
    forall x | x in pieces ensures Text.Tight(x) && ',' !in x {
      var i :| 0 <= i < |pieces| && pieces[i] == x;
      TrimmedPiece(parts[i]);
    }
  }

  /** A trimmed piece of a split is tight and, being a slice of the piece, has no comma. */
  lemma TrimmedPiece(piece: string)
    requires ',' !in piece
    ensures Text.Tight(Text.Trim(piece)) && ',' !in Text.Trim(piece)
  {
    Text.TrimTight(piece);
    Text.TrimSlice(piece);
    var t := Text.Trim(piece);
    forall i | 0 <= i < |t| ensures t[i] != ',' {
      assert t[i] == piece[Text.Lead(piece) + i];
    }
  }

  /** The features keep the order of the pieces they come from. */
  lemma FeaturesInOrder(input: string)
    ensures Seqs.Subsequence(ParseFeatures(input), Seqs.Map(Text.Trim, Text.Split(input, ',')))
  {
    Seqs.KeepSubsequence(Seqs.Map(Text.Trim, Text.Split(input, ',')), NonEmpty);
  }

  /** Writing the features back as a comma list and parsing it again gives the same features. */
  lemma ParseFeaturesRoundTrip(input: string)
    ensures ParseFeatures(Text.Join(ParseFeatures(input), ',')) == ParseFeatures(input)
  {
    var xs := ParseFeatures(input);
    var s := Text.Join(xs, ',');
    if xs == [] {
      assert s == [];
      assert Text.Split(s, ',') == [[]];
      assert Seqs.Map(Text.Trim, [[]]) == [Text.Trim([])];
    } else {
      Text.SplitJoin(xs, ',');
      var trimmed := Seqs.Map(Text.Trim, xs);
      forall i | 0 <= i < |xs| ensures trimmed[i] == xs[i] {
        Text.TightTrim(xs[i]);
      }
      assert trimmed == xs;
      Seqs.KeepAll(xs, NonEmpty);
    }
  }

  /** The project-id input: blank becomes null, anything else its trimmed value. */
  function ProjectIdInput(text: string): (r: Option<string>)
    ensures r.None? <==> Text.Blank(text)
    ensures r.Some? ==> r.value == Text.Trim(text)
  {
    if Text.Trim(text) == "" then None else Some(Text.Trim(text))
  }

  /** The orientation select: "none" or one orientation. */
  datatype FacingOption = NoneOption | Facing(orientation: Orientation)

  /** `val === "none" ? null : val`. */
  function FacingInput(o: FacingOption): (r: Option<Orientation>)
    ensures r.None? <==> o == NoneOption
    ensures o.Facing? ==> r == Some(o.orientation)
  {
    if o == NoneOption then None else Some(o.orientation)
  }

  /** The largest primary image accepted, in bytes. */
  const MaxImageBytes: nat := 2 * 1024 * 1024

  /** A chosen file and the preview URL made for it. */
  datatype ImageFile = ImageFile(name: string, size: nat)

  /** The request `handleSubmit` sends: the form, with the features parsed from their text. */
  function SubmitPayload(form: CreatePropertyRequest, featuresInput: string): (p: CreatePropertyRequest)
    ensures p.features == ParseFeatures(featuresInput)
  {
    form.(features := ParseFeatures(featuresInput))
  }

  /** The submitted request differs from the form in its features alone. */
  lemma PayloadIsForm(form: CreatePropertyRequest, featuresInput: string)
    ensures SubmitPayload(form, featuresInput).(features := form.features) == form
    ensures SubmitPayload(form, featuresInput).propertyCode == form.propertyCode
    ensures SubmitPayload(form, featuresInput).priceAmount == form.priceAmount
  {
  }

  /** The intake page state. */
  class PropertyIntake {
    var step: int
    var form: CreatePropertyRequest
    var featuresInput: string
    var saving: bool
    var primaryImageFile: Option<ImageFile>
    var primaryImagePreview: Option<string>
    var sent: seq<CreatePropertyRequest>

    constructor (currentYear: real)
      ensures step == 1 && form == DefaultForm(currentYear) && featuresInput == "" && !saving
      ensures primaryImageFile.None? && primaryImagePreview.None? && sent == []
    {
      step := 1;
      form := DefaultForm(currentYear);
      featuresInput := "";
      saving := false;
      primaryImageFile := None;
      primaryImagePreview := None;
      sent := [];
    }

    /** `updateField` (any key): the form becomes `f`. */
    method UpdateForm(f: CreatePropertyRequest)
      modifies this
      ensures form == f
      ensures step == old(step) && featuresInput == old(featuresInput) && saving == old(saving)
      ensures primaryImageFile == old(primaryImageFile) && primaryImagePreview == old(primaryImagePreview) && sent == old(sent)
    {
      form := f;
    }

    /** The features text area. */
    method SetFeaturesInput(text: string)
      modifies this
      ensures featuresInput == text
      ensures step == old(step) && form == old(form) && saving == old(saving)
      ensures primaryImageFile == old(primaryImageFile) && primaryImagePreview == old(primaryImagePreview) && sent == old(sent)
    {
      featuresInput := text;
    }

    /** `handleFileSelected`: no file or a file over 2 MB leaves the image untouched; otherwise it is kept with its preview. */
    method SelectFile(file: Option<ImageFile>, previewUrl: string)
      modifies this
      ensures file.Some? && file.value.size <= MaxImageBytes ==>
                primaryImageFile == file && primaryImagePreview == Some(previewUrl)
      ensures file.None? || file.value.size > MaxImageBytes ==>
                primaryImageFile == old(primaryImageFile) && primaryImagePreview == old(primaryImagePreview)
      ensures step == old(step) && form == old(form) && featuresInput == old(featuresInput)
      ensures saving == old(saving) && sent == old(sent)
    {
      if file.None? {
        return;
      }
      var maxSizeMb := 2;
      if file.value.size > maxSizeMb * 1024 * 1024 {
        return;
      }
      primaryImageFile := file;
      primaryImagePreview := Some(previewUrl);
    }

    /** The step-1 header button, and the back button of step 2. */
    method GoToStep1()
      modifies this
      ensures step == 1
      ensures form == old(form) && featuresInput == old(featuresInput) && saving == old(saving)
      ensures primaryImageFile == old(primaryImageFile) && primaryImagePreview == old(primaryImagePreview) && sent == old(sent)
    {
      step := 1;
    }

    /** The step-2 header button and the Next button (disabled unless `canGoNextStep1`). */
    method GoToStep2()
      modifies this
      ensures step == (if CanGoNextStep1(form) then 2 else old(step))
      ensures form == old(form) && featuresInput == old(featuresInput) && saving == old(saving)
      ensures primaryImageFile == old(primaryImageFile) && primaryImagePreview == old(primaryImagePreview) && sent == old(sent)
    {
      if |Text.Trim(form.propertyCode)| > 0 && form.builtArea > 0.0 && form.totalArea > 0.0
         && form.bedrooms > 0.0 && form.bathrooms > 0.0 {
        step := 2;
      }
    }

    /** `handleSubmit` up to the service call (its button is disabled while saving). */
    method Submit()
      modifies this`saving, this`sent
      ensures old(saving) ==> sent == old(sent) && saving
      ensures !old(saving) ==> saving && sent == old(sent) + [SubmitPayload(old(form), old(featuresInput))]
      ensures step == old(step) && form == old(form) && featuresInput == old(featuresInput)
      ensures primaryImageFile == old(primaryImageFile) && primaryImagePreview == old(primaryImagePreview)
    {
      if saving {
        return;
      }
      saving := true;
      sent := sent + [SubmitPayload(form, featuresInput)];
    }

    /** The `finally` of `handleSubmit`. */
    method Settle()
      modifies this`saving
      ensures !saving
      ensures step == old(step) && form == old(form) && featuresInput == old(featuresInput)
      ensures primaryImageFile == old(primaryImageFile) && primaryImagePreview == old(primaryImagePreview) && sent == old(sent)
    {
      saving := false;
    }
  }
}
