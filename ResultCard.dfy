/** The result card of the results page: the confidence band (80 and 60
    are its cut-offs, unlike the history table's 90 and 70), the colour
    family, label and bar colour drawn from it, and the tumour icon. */
module ResultCard {
  import opened Palette
  import opened Text

  /** `getConfidenceColor`. */
  function ConfidenceColor(confidence: real): (c: string)
    ensures c == "success" <==> confidence >= 80.0
    ensures c == "warning" <==> 60.0 <= confidence < 80.0
    ensures c == "error" <==> confidence < 60.0
  {
    if confidence >= 80.0 then "success"
    else if confidence >= 60.0 then "warning"
    else "error"
  }

  /** The colour family `getConfidenceStyles` picks for a colour name. */
  function StyleTone(color: string): Tone
  {
    match color
    case "success" => Success
    case "warning" => Warning
    case "error" => Error
    case _ => Secondary
  }

  /** The card's colour family for a confidence. */
  function CardTone(confidence: real): Tone
  {
    StyleTone(ConfidenceColor(confidence))
  }

  /** The "High"/"Moderate"/"Low" label under the bar. */
  function ConfidenceLabel(confidence: real): string
  {
    if confidence >= 80.0 then "High" else if confidence >= 60.0 then "Moderate" else "Low"
  }

  /** The bar's colour family. */
  function BarTone(confidence: real): Tone
  {
    if confidence >= 80.0 then Success else if confidence >= 60.0 then Warning else Error
  }

  /** For every confidence the card, the label and the bar tell the same
      band, and the style mapping's default branch is never taken. */
  lemma BandsAgree(confidence: real)
    ensures CardTone(confidence) == BarTone(confidence)
    ensures CardTone(confidence) != Secondary
    ensures ConfidenceLabel(confidence) == "High" <==> CardTone(confidence) == Success
    ensures ConfidenceLabel(confidence) == "Moderate" <==> CardTone(confidence) == Warning
    ensures ConfidenceLabel(confidence) == "Low" <==> CardTone(confidence) == Error
  {
  }

  /** The style mapping is total: any other colour name is secondary. */
  lemma StyleToneDefault(color: string)
    ensures color !in ["success", "warning", "error"] <==> StyleTone(color) == Secondary
  {
  }

  /** `getTumorIcon`, on the lower-cased name. */
  function TumorIcon(tumorType: string): string
  {
    match Lower(tumorType)
    case "glioma" => "Brain"
    case "meningioma" => "Circle"
    case "pituitary" => "Target"
    case "no tumor" => "CheckCircle"
    case _ => "AlertCircle"
  }

  /** The icon depends on the name only up to case. */
  lemma TumorIconIgnoresCase(tumorType: string)
    ensures TumorIcon(Lower(tumorType)) == TumorIcon(tumorType)
  {
    LowerIdempotent(tumorType);
  }

  /** A name whose length differs from all four known names, such as the
      seventeen letters of "Pituitary Adenoma", gets the generic icon. */
  lemma UnknownLengthIcon(tumorType: string)
    requires |tumorType| !in {6, 8, 9, 10}
    ensures TumorIcon(tumorType) == "AlertCircle"
  {
  }

  lemma PituitaryAdenomaIcon()
    ensures TumorIcon("Pituitary " + "Adenoma") == "AlertCircle"
  {
    UnknownLengthIcon("Pituitary " + "Adenoma");
  }

  lemma GliomaIcon()
    ensures TumorIcon("Glioma") == "Brain"
  {
    assert Lower("Glioma") == "glioma";
  }
}
