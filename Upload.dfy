/**
 * The upload filename check `allowed_file` of utils.py: a name is accepted
 * when it holds a dot and the text after its last dot, lower-cased, is one
 * of the image extensions png, jpg and jpeg.
 */
module Upload {
  import opened PyText

  const AllowedExtensions: set<string> := {"png", "jpg", "jpeg"}

  /** `'.' in filename and filename.rsplit('.', 1)[1].lower() in allowed_extensions` */
  predicate AllowedFile(filename: string)
  {
    '.' in filename && Lower(AfterLast(filename, '.')) in AllowedExtensions
  }

  /** A name splits at its last dot into a stem and a dot-free extension;
      the name is accepted exactly when that extension, lower-cased, is
      allowed. Whatever the stem holds (dots included) plays no part. */
  lemma AllowedFileOfParts(stem: string, ext: string)
    requires '.' !in ext
    ensures AllowedFile(stem + "." + ext) <==> Lower(ext) in AllowedExtensions
  {
    AfterLastOfSplit(stem, '.', ext);
    assert (stem + "." + ext)[|stem|] == '.';
  }

  /** Accepted names are exactly those of the form stem + "." + ext with a
      dot-free `ext` whose lower-case form is allowed; in particular a
      name without a dot is refused. */
  lemma AllowedFileIff(filename: string)
    ensures '.' !in filename ==> !AllowedFile(filename)
    ensures AllowedFile(filename) <==>
      exists stem, ext :: filename == stem + "." + ext && '.' !in ext && Lower(ext) in AllowedExtensions
  {
    if AllowedFile(filename) {
      var tail := AfterLast(filename, '.');
      var k :| 0 <= k < |filename| && filename[k] == '.' && filename == filename[..k] + [filename[k]] + tail;
      assert filename == filename[..k] + "." + tail;
    }
    if exists stem, ext :: filename == stem + "." + ext && '.' !in ext && Lower(ext) in AllowedExtensions {
      var stem, ext :| filename == stem + "." + ext && '.' !in ext && Lower(ext) in AllowedExtensions;
      AllowedFileOfParts(stem, ext);
    }
  }

  /** Lower-casing keeps the dots where they are and adds none. */
  lemma LowerKeepsDots(s: string)
    ensures forall i :: 0 <= i < |s| ==> (Lower(s)[i] == '.' <==> s[i] == '.')
    ensures ('.' in Lower(s)) <==> ('.' in s)
  {
    if '.' in Lower(s) {
      var i :| 0 <= i < |s| && Lower(s)[i] == '.';
      assert s[i] == '.';
    }
    if '.' in s {
      var i :| 0 <= i < |s| && s[i] == '.';
      assert Lower(s)[i] == '.';
    }
  }

  /** Lower-casing a name split at a dot lower-cases both sides. */
  lemma LowerAroundDot(head: string, tail: string)
    requires '.' !in tail
    ensures Lower(head + "." + tail) == Lower(head) + "." + Lower(tail)
    ensures '.' !in Lower(tail)
  {
    LowerAppend(head + ".", tail);
    LowerAppend(head, ".");
    assert Lower(".") == ".";
    LowerKeepsDots(tail);
  }

  /** The check ignores case: a name and its lower-case form get the same
      verdict. */
  lemma AllowedFileIgnoresCase(filename: string)
    ensures AllowedFile(Lower(filename)) == AllowedFile(filename)
  {
    LowerKeepsDots(filename);
    if '.' in filename {
      var tail := AfterLast(filename, '.');
      var k :| 0 <= k < |filename| && filename[k] == '.' && filename == filename[..k] + [filename[k]] + tail;
      var head := filename[..k];
      assert filename == head + "." + tail;
      LowerAroundDot(head, tail);
      AfterLastOfSplit(Lower(head), '.', Lower(tail));
      LowerIdempotent(tail);
    }
  }
}

/**
 * The verdicts of the upload check on the example names its behaviour is
 * usually described by, each for an arbitrary stem.
 */
module UploadExamples {
  import opened PyText
  import opened Upload

  /** Only the last extension counts: whatever precedes it (dots
      included), a name ending in ".png" is accepted, so "a.exe.png"
      passes ... */
  lemma PngAccepted(stem: string)
    ensures AllowedFile(stem + "." + "png")
  {
    AllowedFileOfParts(stem, "png");
    assert Lower("png") == "png";
  }

  /** ... and one ending in ".exe" is refused, so "a.png.exe" does not. */
  lemma ExeRejected(stem: string)
    ensures !AllowedFile(stem + "." + "exe")
  {
    AllowedFileOfParts(stem, "exe");
    assert Lower("exe")[0] == 'e';
  }

  /** Upper-case extensions are accepted ("X.PNG"). */
  lemma UpperCaseAccepted(stem: string)
    ensures AllowedFile(stem + "." + "PNG")
  {
    AllowedFileOfParts(stem, "PNG");
    assert Lower("PNG") == "png";
  }

  /** Mixed-case extensions are accepted ("y.JpEg"). */
  lemma MixedCaseAccepted(stem: string)
    ensures AllowedFile(stem + "." + "JpEg")
  {
    AllowedFileOfParts(stem, "JpEg");
    assert Lower("JpEg") == "jpeg";
  }

  /** A bare ".png" is accepted: its stem is empty. */
  lemma BareExtensionAccepted()
    ensures AllowedFile(".png")
  {
    PngAccepted("");
    assert "" + "." + "png" == ".png";
  }

  /** A name ending in a dot has an empty extension and is refused ("x."). */
  lemma EmptyExtensionRejected(stem: string)
    ensures !AllowedFile(stem + "." + "")
  {
    AllowedFileOfParts(stem, "");
  }

  /** Other image extensions are refused ("x.gif"). */
  lemma GifRejected(stem: string)
    ensures !AllowedFile(stem + "." + "gif")
  {
    AllowedFileOfParts(stem, "gif");
    assert Lower("gif")[0] == 'g';
  }
}

/**
 * The copy of the upload check in core/utils.py.
 */
module CoreUtils {
  import opened PyText
  import Upload

  /** The same expression as utils.py, so the two agree on every name. */
  predicate AllowedFile(filename: string)
    ensures AllowedFile(filename) == Upload.AllowedFile(filename)
  {
    '.' in filename && Lower(AfterLast(filename, '.')) in {"png", "jpg", "jpeg"}
  }
}
