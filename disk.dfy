/** The disk as the merger sees it, and the converters it calls.
    A folder is listed by os.listdir (names in the order the listing gives
    them); a file holds one of four kinds of content, and each library call
    succeeds or raises according to that content:
      PdfReader opens only a Pdf, PIL opens only an Image, Word converts only
      a Word document; nothing opens an Unreadable file.
    Writing a file adds its name to the folder listing (if new) and sets its
    content. Paths are joined with the Windows separator. */
module Disk {
  import opened Text
  import opened Pages

  datatype Content =
    | Pdf(pages: seq<Page>)
    | Image(width: int, height: int)   // pixel size once the EXIF orientation is applied
    | Word(rendered: seq<Page>)        // the pages Word produces when it exports the document
    | Unreadable

  datatype FileSystem = FileSystem(dirs: map<string, seq<string>>, files: map<string, Content>)

  /** os.path.join(dir, name). */
  function Join(dir: string, name: string): string
  {
    dir + [Sep] + name
  }

  /** Two names joined under the same folder give the same path only when
      they are the same name. */
  lemma JoinInjective(dir: string, a: string, b: string)
    requires Join(dir, a) == Join(dir, b)
    ensures a == b
  {
    assert a == Join(dir, a)[|dir| + 1..];
  }

  /** On a real disk no path is both a folder and a file. */
  ghost predicate Sound(fs: FileSystem)
  {
    fs.dirs.Keys !! fs.files.Keys
  }

  predicate IsDir(fs: FileSystem, p: string)
  {
    p in fs.dirs
  }

  predicate IsFile(fs: FileSystem, p: string)
  {
    p in fs.files
  }

  /** os.listdir on a folder. */
  function ListDir(fs: FileSystem, p: string): seq<string>
    requires IsDir(fs, p)
  {
    fs.dirs[p]
  }

  /** PdfReader(p).pages, or None when PdfReader raises. */
  function ReadPdf(fs: FileSystem, p: string): Option<seq<Page>>
  {
    if p in fs.files && fs.files[p].Pdf? then Some(fs.files[p].pages) else None
  }

  /** Writing `c` to Join(dir, name). */
  function Write(fs: FileSystem, dir: string, name: string, c: Content): (r: FileSystem)
    ensures r.files == fs.files[Join(dir, name) := c]
    ensures r.dirs.Keys == fs.dirs.Keys
    ensures forall d :: d in fs.dirs && d != dir ==> r.dirs[d] == fs.dirs[d]
    ensures dir in fs.dirs ==> name in r.dirs[dir]
    ensures dir in fs.dirs ==> forall n :: n in fs.dirs[dir] ==> n in r.dirs[dir]
  {
    var dirs := if dir in fs.dirs && name !in fs.dirs[dir] then fs.dirs[dir := fs.dirs[dir] + [name]] else fs.dirs;
    FileSystem(dirs, fs.files[Join(dir, name) := c])
  }

  /** Writing a file where no folder is keeps the disk sound. */
  lemma WriteKeepsSound(fs: FileSystem, dir: string, name: string, c: Content)
    requires Sound(fs) && !IsDir(fs, Join(dir, name))
    ensures Sound(Write(fs, dir, name, c))
  {
  }

  /** Every path other than `path` is as it was. */
  ghost predicate WritesOnly(fs: FileSystem, fs': FileSystem, path: string)
  {
    forall q :: q != path ==>
      (q in fs'.files <==> q in fs.files) && (q in fs.files ==> fs'.files[q] == fs.files[q])
  }

  /** rotate_pdf_if_needed(src, Join(dir, name)): every page of the source,
      oriented by `rule`, is written to the destination. When PdfReader
      raises, a revision with the copy fallback copies the source file as it
      is (a failing copy is swallowed too), and a revision without it raises. */
  function Rotated(fs: FileSystem, rule: Rule, fallback: bool, src: string, dir: string, name: string): (r: Option<FileSystem>)
    ensures r.Some? ==> WritesOnly(fs, r.value, Join(dir, name))
  {
    match ReadPdf(fs, src)
    case Some(pages) => Some(Write(fs, dir, name, Pdf(Normalized(rule, pages))))
    case None =>
      if !fallback then None
      else if src in fs.files then Some(Write(fs, dir, name, fs.files[src]))
      else Some(fs)
  }

  /** The whole of rotate_pdf_if_needed: open, orient page by page, write. */
  method RotatePdfIfNeeded(fs: FileSystem, rule: Rule, fallback: bool, src: string, dir: string, name: string)
    returns (r: Option<FileSystem>)
    ensures r == Rotated(fs, rule, fallback, src, dir, name)
  {
    var reading := ReadPdf(fs, src);
    if reading.Some? {
      var written := OrientPages(rule, reading.value);
      r := Some(Write(fs, dir, name, Pdf(written)));
    } else if !fallback {
      r := None;
    } else if src in fs.files {
      r := Some(Write(fs, dir, name, fs.files[src]));
    } else {
      r := Some(fs);
    }
  }

  /** What rotate_pdf_if_needed leaves at the destination: a readable source
      reads back from it as its oriented pages; an unreadable one raises
      without the fallback, and under the fallback the destination holds a
      copy of it (or nothing is written when the copy fails too). */
  lemma RotatedOutcome(fs: FileSystem, rule: Rule, fallback: bool, src: string, dir: string, name: string)
    ensures ReadPdf(fs, src).Some? ==>
              Rotated(fs, rule, fallback, src, dir, name).Some? &&
              ReadPdf(Rotated(fs, rule, fallback, src, dir, name).value, Join(dir, name))
              == Some(Normalized(rule, ReadPdf(fs, src).value))
    ensures ReadPdf(fs, src).None? && !fallback ==> Rotated(fs, rule, fallback, src, dir, name).None?
    ensures ReadPdf(fs, src).None? && fallback && src in fs.files ==>
              Rotated(fs, rule, fallback, src, dir, name).Some? &&
              Rotated(fs, rule, fallback, src, dir, name).value.files[Join(dir, name)] == fs.files[src]
    ensures ReadPdf(fs, src).None? && fallback && src !in fs.files ==>
              Rotated(fs, rule, fallback, src, dir, name) == Some(fs)
    ensures fallback ==> Rotated(fs, rule, fallback, src, dir, name).Some?
  {
  }

  /** image_to_pdf: the image becomes a one-page PDF of its own size. */
  function ImageToPdf(fs: FileSystem, src: string, dir: string, name: string): (r: Option<FileSystem>)
    ensures r.Some? <==> src in fs.files && fs.files[src].Image?
    ensures r.Some? ==> WritesOnly(fs, r.value, Join(dir, name))
  {
    if src in fs.files && fs.files[src].Image? then
      var img := fs.files[src];
      Some(Write(fs, dir, name, Pdf([Page(img.width, img.height, 0)])))
    else None
  }

  /** word_to_rotated_pdf: Word exports the document to a temporary PDF, which
      is then passed through rotate_pdf_if_needed into the destination. The
      temporary export is always readable, so the destination receives the
      oriented pages; a document Word cannot export raises. */
  function WordToRotated(fs: FileSystem, rule: Rule, src: string, dir: string, name: string): (r: Option<FileSystem>)
    ensures r.Some? <==> src in fs.files && fs.files[src].Word?
    ensures r.Some? ==> WritesOnly(fs, r.value, Join(dir, name))
  {
    if src in fs.files && fs.files[src].Word? then
      Some(Write(fs, dir, name, Pdf(Normalized(rule, fs.files[src].rendered))))
    else None
  }
}
