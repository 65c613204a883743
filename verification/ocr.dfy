/**
 * Text extraction (`OCRProcessor` in main.py). The OCR engines are foreign
 * code; what they do to the one image at hand is given as an `Engines`
 * value, and the model keeps what the tool itself decides: which engine
 * runs, which language it gets, when the EasyOCR reader is built, which
 * detections are kept and how they are joined, and which diagnostic string
 * stands in for a failure.
 */
module Ocr {
  import opened PyValue
  import PyText
  import Settings

  /** One EasyOCR detection; its bounding box plays no part. */
  datatype Detection = Detection(text: string, confidence: real)

  /** Detections at or below this confidence are dropped. */
  const ConfidenceThreshold: real := 0.5

  /** The detections above the threshold, in the engine's order. */
  function Kept(ds: seq<Detection>): seq<Detection>
    decreases |ds|
  {
    if ds == [] then []
    else if ds[|ds| - 1].confidence > ConfidenceThreshold then Kept(ds[..|ds| - 1]) + [ds[|ds| - 1]]
    else Kept(ds[..|ds| - 1])
  }

  /** Exactly the confident detections are kept. */
  lemma {:induction false} KeptMembers(ds: seq<Detection>, d: Detection)
    ensures d in Kept(ds) <==> d in ds && d.confidence > ConfidenceThreshold
    decreases |ds|
  {
    if ds != [] {
      var init := ds[..|ds| - 1];
      KeptMembers(init, d);
      assert ds == init + [ds[|ds| - 1]];
    }
  }

  /** Filtering commutes with concatenation, so the kept detections keep the
      engine's order. */
  lemma {:induction false} KeptAppend(a: seq<Detection>, b: seq<Detection>)
    ensures Kept(a + b) == Kept(a) + Kept(b)
    decreases |b|
  {
    if b == [] {
      assert a + b == a;
    } else {
      var init := b[..|b| - 1];
      assert (a + b)[..|a + b| - 1] == a + init;
      assert (a + b)[|a + b| - 1] == b[|b| - 1];
      KeptAppend(a, init);
    }
  }

  function Texts(ds: seq<Detection>): (ts: seq<string>)
    ensures |ts| == |ds|
    ensures forall i :: 0 <= i < |ds| ==> ts[i] == ds[i].text
  {
    if ds == [] then [] else [ds[0].text] + Texts(ds[1..])
  }

  lemma TextsAppend(a: seq<Detection>, b: seq<Detection>)
    ensures Texts(a + b) == Texts(a) + Texts(b)
  {
  }

  /** One more detection adds its text exactly when it is confident. */
  lemma CollectStep(pre: seq<Detection>, d: Detection)
    ensures Texts(Kept(pre + [d])) ==
      Texts(Kept(pre)) + (if d.confidence > ConfidenceThreshold then [d.text] else [])
  {
    assert (pre + [d])[..|pre|] == pre;
    if d.confidence > ConfidenceThreshold {
      TextsAppend(Kept(pre), [d]);
    }
  }

  /** The loop of `_extract_with_easyocr` that collects the confident lines. */
  method CollectLines(results: seq<Detection>) returns (lines: seq<string>)
    ensures lines == Texts(Kept(results))
  {
    lines := [];
    var i := 0;
    while i < |results|
      invariant 0 <= i <= |results|
      invariant lines == Texts(Kept(results[..i]))
    {
      var d := results[i];
      assert results[..i + 1] == results[..i] + [d];
      CollectStep(results[..i], d);
      if d.confidence > ConfidenceThreshold {
        lines := lines + [d.text];
      }
      i := i + 1;
    }
    assert results[..i] == results;
  }

  /** The text EasyOCR's detections turn into. */
  function EasyOcrText(results: seq<Detection>): string
  {
    PyText.Strip(PyText.Join("\n", Texts(Kept(results))))
  }

  /** Every line that goes into the joined text comes from a detection above
      the threshold; when no detection is above it the text is empty. */
  lemma EasyOcrLinesConfident(results: seq<Detection>)
    ensures forall i :: 0 <= i < |Kept(results)| ==>
      Kept(results)[i] in results && Kept(results)[i].confidence > ConfidenceThreshold
    ensures (forall d :: d in results ==> d.confidence <= ConfidenceThreshold) ==> EasyOcrText(results) == ""
  {
    forall i | 0 <= i < |Kept(results)|
      ensures Kept(results)[i] in results && Kept(results)[i].confidence > ConfidenceThreshold
    {
      KeptMembers(results, Kept(results)[i]);
    }
    if forall d :: d in results ==> d.confidence <= ConfidenceThreshold {
      if Kept(results) != [] {
        KeptMembers(results, Kept(results)[0]);
      }
    }
  }

  /** The language-code table of `_extract_with_easyocr`. */
  const EasyOcrLanguages: map<string, string> := map[
    "eng" := "en",
    "spa" := "es",
    "fra" := "fr",
    "deu" := "de",
    "ita" := "it",
    "por" := "pt",
    "rus" := "ru",
    "chi_sim" := "ch_sim",
    "chi_tra" := "ch_tra",
    "jpn" := "ja",
    "kor" := "ko"
  ]

  /** `lang_map.get(language, 'en')`: a setting that is not one of the
      table's string keys falls back to English. */
  function EasyOcrLanguage(language: Value): (code: string)
    ensures language.VStr? && language.s in EasyOcrLanguages ==> code == EasyOcrLanguages[language.s]
    ensures !(language.VStr? && language.s in EasyOcrLanguages) ==> code == "en"
    ensures code in EasyOcrLanguages.Values
  {
    if language.VStr? && language.s in EasyOcrLanguages then EasyOcrLanguages[language.s]
    else assert EasyOcrLanguages["eng"] == "en"; "en"
  }

  /** An EasyOCR reader, built for one language. */
  datatype Reader = Reader(language: string)

  /** What the foreign OCR code does with the image at hand. */
  datatype Engines = Engines(
    librariesLoaded: bool,                     // both OCR imports succeeded at start-up
    imageToString: Value -> Call<string>,      // pytesseract.image_to_string(image, lang=...)
    newReader: string -> Option<string>,       // easyocr.Reader([code]): Some(message) if it raises
    readText: string -> Call<seq<Detection>>)  // readtext on this image by a reader of that language

  /** The reader `_extract_with_easyocr` uses: the memoised one if there is
      one, otherwise a new one for the mapped language (or the exception
      building it raised). */
  function ReaderFor(reader: Option<Reader>, language: Value, e: Engines): (r: Call<Reader>)
    ensures reader.Some? ==> r == Returned(reader.value)
    ensures reader.None? && r.Returned? ==> r.value == Reader(EasyOcrLanguage(language))
  {
    if reader.Some? then Returned(reader.value)
    else
      var code := EasyOcrLanguage(language);
      match e.newReader(code)
      case None => Returned(Reader(code))
      case Some(msg) => Raised(msg)
  }

  /** The string `_extract_with_easyocr` returns for a given reader. */
  function EasyOcrOutput(r: Call<Reader>, e: Engines): string
  {
    match r
    case Raised(msg) => "EasyOCR error: " + msg
    case Returned(rd) =>
      match e.readText(rd.language)
      case Raised(msg) => "EasyOCR error: " + msg
      case Returned(results) => EasyOcrText(results)
  }

  /** Once a reader exists, the language setting no longer matters. */
  lemma ReaderIgnoresLaterLanguage(rd: Reader, language1: Value, language2: Value, e: Engines)
    ensures ReaderFor(Some(rd), language1, e) == ReaderFor(Some(rd), language2, e) == Returned(rd)
  {
  }

  /** The string `_extract_with_pytesseract` returns. */
  function TesseractOutput(language: Value, e: Engines): string
  {
    match e.imageToString(language)
    case Returned(text) => PyText.Strip(text)
    case Raised(msg) => "Pytesseract error: " + msg
  }

  const NotAvailableMessage: string :=
    "OCR libraries not available. Please install: pip install pytesseract easyocr"

  /** The string `extract_text` returns, given the reader memoised so far. */
  function ExtractOutput(reader: Option<Reader>, ocrMethod: Value, language: Value, e: Engines): string
  {
    if !e.librariesLoaded then NotAvailableMessage
    else if ocrMethod == VStr("pytesseract") then TesseractOutput(language, e)
    else if ocrMethod == VStr("easyocr") then EasyOcrOutput(ReaderFor(reader, language, e), e)
    else "Unknown OCR method: " + Show(ocrMethod)
  }

  /** Dispatch is on the method's exact string value: the engines run only
      for "pytesseract" and "easyocr", and a successful run's text has no
      whitespace at either end. */
  lemma ExtractDispatch(reader: Option<Reader>, ocrMethod: Value, language: Value, e: Engines)
    ensures var out := ExtractOutput(reader, ocrMethod, language, e);
      && (!e.librariesLoaded ==> out == NotAvailableMessage)
      && (e.librariesLoaded && ocrMethod != VStr("pytesseract") && ocrMethod != VStr("easyocr") ==>
            out == "Unknown OCR method: " + Show(ocrMethod))
      && (e.librariesLoaded && ocrMethod == VStr("pytesseract") && e.imageToString(language).Returned? ==>
            out == [] || (!PyText.IsSpace(out[0]) && !PyText.IsSpace(out[|out| - 1])))
  {
    if e.librariesLoaded && ocrMethod == VStr("pytesseract") && e.imageToString(language).Returned? {
      PyText.StripEnds(e.imageToString(language).value);
    }
  }

  class OcrProcessor {
    const settings: Settings.SettingsManager
    /** `easyocr_reader`: built on the first EasyOCR call, then reused. */
    var reader: Option<Reader>

    constructor (settings: Settings.SettingsManager)
      ensures this.settings == settings && reader == None
    {
      this.settings := settings;
      reader := None;
    }

    /** `_extract_with_easyocr`. */
    method ExtractWithEasyOcr(language: Value, e: Engines) returns (text: string)
      modifies this
      ensures text == EasyOcrOutput(ReaderFor(old(reader), language, e), e)
      ensures old(reader).Some? ==> reader == old(reader)
      ensures old(reader).None? ==>
        reader == (match ReaderFor(None, language, e)
                   case Returned(rd) => Some(rd)
                   case Raised(_) => None)
    {
      if reader.None? {
        var code := EasyOcrLanguage(language);
        var failure := e.newReader(code);
        if failure.Some? {
          return "EasyOCR error: " + failure.value;
        }
        reader := Some(Reader(code));
      }
      var results := e.readText(reader.value.language);
      if results.Raised? {
        return "EasyOCR error: " + results.message;
      }
      var lines := CollectLines(results.value);
      text := PyText.Strip(PyText.Join("\n", lines));
    }

    /** `extract_text`: never raises; every failure comes back as a
        diagnostic string. */
    method ExtractText(e: Engines) returns (text: string)
      modifies this
      ensures text == ExtractOutput(old(reader), settings.Get("ocr_method"), settings.Get("ocr_language"), e)
      ensures settings.Get("ocr_method") != VStr("easyocr") || !e.librariesLoaded ==> reader == old(reader)
      ensures old(reader).Some? ==> reader == old(reader)
      ensures e.librariesLoaded && settings.Get("ocr_method") == VStr("easyocr") && old(reader).None? ==>
        reader == (match ReaderFor(None, settings.Get("ocr_language"), e)
                   case Returned(rd) => Some(rd)
                   case Raised(_) => None)
    {
      if !e.librariesLoaded {
        return NotAvailableMessage;
      }
      var ocrMethod := settings.Get("ocr_method");
      var language := settings.Get("ocr_language");
      if ocrMethod == VStr("pytesseract") {
        var r := e.imageToString(language);
        text := if r.Returned? then PyText.Strip(r.value) else "Pytesseract error: " + r.message;
      } else if ocrMethod == VStr("easyocr") {
        text := ExtractWithEasyOcr(language, e);
      } else {
        text := "Unknown OCR method: " + Show(ocrMethod);
      }
    }
  }
}
