/**
 * The attachment filter and size limit applied to invoice uploads. A file is kept only when
 * its lower-cased extension and its (not lower-cased) mimetype both contain one of the words
 * jpeg, jpg, png or pdf, and it is no larger than ten mebibytes.
 */
module FileUpload {
  import opened Wrappers
  import opened Text

  /** The upload size limit in bytes. */
  const MaxFileSize: nat := 10 * 1024 * 1024

  /** The error the filter reports for a refused file. */
  const FileTypeError := "Only images (JPEG, JPG, PNG) and PDF files are allowed"

  /** The error the size limit reports. */
  const FileSizeError := "File too large"

  /** An attachment as the client sent it: its file name, its declared mimetype and its length. */
  datatype UploadedFile = UploadedFile(originalName: string, mimetype: string, size: nat)

  /** `p` without its trailing occurrences of `c`. */
  function DropTrailing(p: string, c: char): (r: string)
    ensures |r| <= |p| && r == p[..|r|]
    ensures r == [] || r[|r| - 1] != c
  {
    if |p| > 0 && p[|p| - 1] == c then DropTrailing(p[..|p| - 1], c) else p
  }

  /** The text after the last occurrence of `c` in `s`, or all of `s` when `c` does not occur. */
  function After(s: string, c: char): (r: string)
    ensures c !in r
    ensures |r| <= |s| && r == s[|s| - |r|..]
    ensures |r| < |s| <==> c in s
    ensures |r| < |s| ==> s[|s| - |r| - 1] == c
  {
    if |s| == 0 then ""
    else if s[|s| - 1] == c then ""
    else
      var r := After(s[..|s| - 1], c);
      assert s == s[..|s| - 1] + [s[|s| - 1]];
      r + [s[|s| - 1]]
  }

  lemma {:induction false} AfterLast(x: string, c: char, y: string)
    requires c !in y
    ensures After(x + [c] + y, c) == y
    decreases |y|
  {
    var s := x + [c] + y;
    if |y| == 0 {
      assert s[|s| - 1] == c;
    } else {
      var last := y[|y| - 1];
      assert last in y;
      assert s[|s| - 1] == last && last != c;
      assert s[..|s| - 1] == x + [c] + y[..|y| - 1];
      AfterLast(x, c, y[..|y| - 1]);
      assert After(s, c) == After(s[..|s| - 1], c) + [last];
      assert y == y[..|y| - 1] + [last];
    }
  }

  lemma {:induction false} AfterAbsent(s: string, c: char)
    requires c !in s
    ensures After(s, c) == s
    decreases |s|
  {
    if |s| > 0 {
      AfterAbsent(s[..|s| - 1], c);
      assert s == s[..|s| - 1] + [s[|s| - 1]];
    }
  }

  /**
   * `path.extname(p)` on POSIX paths: from the last dot of the last path segment (trailing
   * slashes ignored) to its end; empty when the segment has no dot, starts with its only
   * counted dot, or is "..".
   */
  function ExtName(p: string): (e: string)
    ensures e == [] || (e[0] == '.' && '.' !in e[1..] && '/' !in e)
  {
    var base := After(DropTrailing(p, '/'), '/');
    if '.' !in base || base == ".." then ""
    else
      var tail := After(base, '.');
      if |tail| + 1 == |base| then "" else "." + tail
  }

  /** A file name's extension is what follows its last dot. */
  lemma ExtNameOfFileName(stem: string, ext: string)
    requires stem != [] && '/' !in stem && stem != "."
    requires '.' !in ext && '/' !in ext
    ensures ExtName(stem + "." + ext) == "." + ext
  {
    var p := stem + "." + ext;
    assert DropTrailing(p, '/') == p;
    AfterAbsent(p, '/');
    AfterLast(stem, '.', ext);
    assert p != "..";
  }

  /** A name without a dot, or a dot file such as ".pdf", has no extension. */
  lemma NoExtension(name: string)
    requires '/' !in name
    requires '.' !in name || (|name| > 0 && name[0] == '.' && '.' !in name[1..])
    ensures ExtName(name) == ""
  {
    assert DropTrailing(name, '/') == name by {
      if |name| > 0 {
        assert name[|name| - 1] in name;
      }
    }
    AfterAbsent(name, '/');
    if '.' in name && name != ".." {
      assert name == [] + ['.'] + name[1..];
      AfterLast([], '.', name[1..]);
    }
  }

  /** The regular expression /jpeg|jpg|png|pdf/ tested against `s`. */
  predicate AllowedType(s: string) {
    Contains(s, "jpeg") || Contains(s, "jpg") || Contains(s, "png") || Contains(s, "pdf")
  }

  /** The filter: both the lower-cased extension and the raw mimetype must match. */
  predicate FileFilter(f: UploadedFile) {
    AllowedType(Lower(ExtName(f.originalName))) && AllowedType(f.mimetype)
  }

  /** The error an attachment raises before the route runs, if any: the filter's first, then the size limit's. */
  function UploadError(f: UploadedFile): (r: Option<string>)
    ensures r.None? <==> FileFilter(f) && f.size <= MaxFileSize
    ensures !FileFilter(f) ==> r == Some(FileTypeError)
    ensures FileFilter(f) && f.size > MaxFileSize ==> r == Some(FileSizeError)
  {
    if !FileFilter(f) then Some(FileTypeError)
    else if f.size > MaxFileSize then Some(FileSizeError)
    else None
  }

  /** The size limit is ten mebibytes: a file of exactly that size passes, one byte more does not. */
  lemma SizeLimit(name: string, mimetype: string)
    ensures FileFilter(UploadedFile(name, mimetype, 0)) ==>
      && UploadError(UploadedFile(name, mimetype, 10485760)).None?
      && UploadError(UploadedFile(name, mimetype, 10485761)) == Some(FileSizeError)
  {
  }

  lemma {:induction false} LowerAppend(a: string, b: string)
    ensures Lower(a + b) == Lower(a) + Lower(b)
    decreases |a|
  {
    if a == [] {
      assert a + b == b;
    } else {
      LowerAppend(a[1..], b);
      assert (a + b)[0] == a[0];
      assert (a + b)[1..] == a[1..] + b;
      calc {
        Lower(a + b);
        [LowerChar(a[0])] + Lower(a[1..] + b);
        [LowerChar(a[0])] + Lower(a[1..]) + Lower(b);
        Lower(a) + Lower(b);
      }
    }
  }

  lemma {:induction false} LowerIdempotent(s: string)
    ensures Lower(Lower(s)) == Lower(s)
    decreases |s|
  {
    if s != [] {
      LowerIdempotent(s[1..]);
      assert Lower(s)[1..] == Lower(s[1..]);
    }
  }

  /** The extension is compared case-insensitively: writing it in any case changes nothing. */
  lemma ExtensionCaseIgnored(stem: string, ext: string, mimetype: string, size: nat)
    requires stem != [] && '/' !in stem && stem != "."
    requires '.' !in ext && '/' !in ext
    requires '.' !in Lower(ext) && '/' !in Lower(ext)
    ensures FileFilter(UploadedFile(stem + "." + ext, mimetype, size))
        <==> FileFilter(UploadedFile(stem + "." + Lower(ext), mimetype, size))
  {
    ExtNameOfFileName(stem, ext);
    ExtNameOfFileName(stem, Lower(ext));
    LowerAppend(".", ext);
    LowerAppend(".", Lower(ext));
    LowerIdempotent(ext);
  }

  /** The mimetype test is not anchored: any mimetype with "pdf" inside passes it. */
  lemma MimetypeUnanchored(prefix: string, suffix: string)
    ensures AllowedType(prefix + "pdf" + suffix)
  {
    Unanchored(prefix, "pdf", suffix);
  }

  /** A word with a character the subject lacks cannot occur in it. */
  lemma {:induction false} MissingCharacter(s: string, sub: string, c: char)
    requires c in sub && c !in s
    ensures !Contains(s, sub)
    decreases |s|
  {
    if |sub| <= |s| {
      MissingCharacter(s[1..], sub, c);
    }
  }

  /** For an ordinary file name, the filter is decided by the lower-cased extension and the mimetype. */
  lemma FilterOnFileName(stem: string, ext: string, mimetype: string, size: nat)
    requires stem != [] && '/' !in stem && stem != "."
    requires '.' !in ext && '/' !in ext
    ensures FileFilter(UploadedFile(stem + "." + ext, mimetype, size))
        <==> AllowedType(Lower("." + ext)) && AllowedType(mimetype)
  {
    ExtNameOfFileName(stem, ext);
  }

  /** An upper-case ".PDF" extension passes, since the extension is lower-cased first. */
  lemma UpperCaseExtensionAccepted()
    ensures AllowedType(Lower(".PDF"))
  {
    assert Lower(".PDF") == ".pdf";
    Unanchored(".", "pdf", "");
    assert "." + "pdf" + "" == ".pdf";
  }

  /** A ".txt" extension fails the test, so such a file is refused whatever its mimetype. */
  lemma TextExtensionRefused()
    ensures !AllowedType(Lower(".txt"))
  {
    var e := Lower(".txt");
    assert e == ".txt";
    MissingCharacter(e, "jpeg", 'j');
    MissingCharacter(e, "jpg", 'j');
    MissingCharacter(e, "png", 'n');
    MissingCharacter(e, "pdf", 'p');
  }

  /** The mimetype is not lower-cased: one written in capitals lacks the lower-case letters and is refused. */
  lemma MimetypeCaseSensitive(name: string, mimetype: string, size: nat)
    requires 'j' !in mimetype && 'p' !in mimetype
    ensures !FileFilter(UploadedFile(name, mimetype, size))
    ensures UploadError(UploadedFile(name, mimetype, size)) == Some(FileTypeError)
  {
    MissingCharacter(mimetype, "jpeg", 'j');
    MissingCharacter(mimetype, "jpg", 'j');
    MissingCharacter(mimetype, "png", 'p');
    MissingCharacter(mimetype, "pdf", 'p');
  }

  /** "APPLICATION/PDF" is one such mimetype. */
  lemma UpperCaseMimetypeRefused(name: string, size: nat)
    ensures !FileFilter(UploadedFile(name, "APPLICATION/PDF", size))
  {
    MimetypeCaseSensitive(name, "APPLICATION/PDF", size);
  }
}
