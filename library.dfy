/** The structure of `library.xml`, the catalogue the content server reads. */
module LibraryXml {
  /** One `<book>` element: its `id` and `path` attributes and its child elements' text. */
  datatype Book = Book(
    id: string,
    path: string,
    title: string,
    creator: string,
    publisher: string,
    date: string,
    description: string,
    language: string,
    size: int,
    url: string)

  /** The `<library version=...>` root and its books, in document order. */
  datatype LibraryDocument = LibraryDocument(version: string, books: seq<Book>)
}

/**
 * `LibraryManager`: rebuilds `library.xml` from the `.zim` files in the data
 * directory, deriving each book's metadata from its file name, and
 * publishes it through a `.tmp` file renamed over the old catalogue.
 */
module Library {
  import opened Wrappers
  import opened Strings
  import opened Files
  import opened LibraryXml
  import opened Configuration

  const LibraryVersion := "20110515"
  const TestingUrl := "https://github.com/openzim/zim-tools/blob/main/test/data/zimfiles/good.zim"

  /** The metadata `_get_zim_metadata` derives from a file name. */
  datatype ZimMetadata = ZimMetadata(
    name: string,
    date: string,
    language: string,
    creator: string,
    publisher: string,
    description: string)

  /** The `_`-separated parts of the base name once every `.zim` is removed. */
  function NameParts(filepath: string): (parts: seq<string>)
    ensures |parts| >= 1
    ensures Join(parts, '_') == RemoveAll(BaseName(filepath), ".zim")
    ensures forall k :: 0 <= k < |parts| ==> '_' !in parts[k]
  {
    JoinSplit(RemoveAll(BaseName(filepath), ".zim"), '_');
    Split(RemoveAll(BaseName(filepath), ".zim"), '_')
  }

  /**
   * `_get_zim_metadata(filepath)`: with several parts, the name is all but
   * the last, the date the last and the language the second; with one
   * part, the name is the whole stem, the date empty and the language `eng`.
   * The creator is the stem's first `_`-free segment.
   */
  function ZimMetadataOf(filepath: string): (md: ZimMetadata)
    ensures var stem := RemoveAll(BaseName(filepath), ".zim");
      && '_' !in md.creator && StartsWith(stem, md.creator)
      && ('_' !in stem ==> md.name == stem && md.creator == stem && md.date == "" && md.language == "eng")
      && md.publisher == "Kiwix" && md.description == "Kiwix ZIM file for " + md.creator
  {
    var parts := NameParts(filepath);
    var several := |parts| > 1;
    var stem := Join(parts, '_');
    assert several ==> stem == parts[0] + ['_'] + Join(parts[1..], '_') && stem[|parts[0]|] == '_';
    assert stem[..|parts[0]|] == parts[0];
    ZimMetadata(
      if several then Join(parts[..|parts| - 1], '_') else parts[0],
      if several then parts[|parts| - 1] else "",
      if several then parts[1] else "eng",
      parts[0],
      "Kiwix",
      "Kiwix ZIM file for " + parts[0])
  }

  /** Name and date put back together give the stem; a stem without `_` is the name itself. */
  lemma NameAndDateRebuildStem(filepath: string)
    ensures var md := ZimMetadataOf(filepath);
      var stem := RemoveAll(BaseName(filepath), ".zim");
      && ('_' in stem ==> md.name + "_" + md.date == stem)
      && ('_' !in stem ==> md.name == stem && md.date == "" && md.language == "eng")
      && md.publisher == "Kiwix"
      && md.description == "Kiwix ZIM file for " + md.creator
  {
    var parts := NameParts(filepath);
    var stem := RemoveAll(BaseName(filepath), ".zim");
    if |parts| > 1 {
      JoinSnoc(parts, '_');
      assert stem[|parts[0]|] == '_';
    }
  }

  /**
   * A file named `<p0>_<p1>_…_<date>.zim` in any directory yields the parts
   * before the date as name, the date, `p1` as language and `p0` as creator.
   */
  lemma MetadataOfVersionedFile(dir: string, parts: seq<string>)
    requires |parts| >= 2
    requires forall k :: 0 <= k < |parts| ==> '_' !in parts[k] && '/' !in parts[k]
    requires !Contains(Join(parts, '_'), ".zim")
    ensures ZimMetadataOf(PathJoin(dir, Join(parts, '_') + ".zim")) ==
      ZimMetadata(Join(parts[..|parts| - 1], '_'), parts[|parts| - 1], parts[1], parts[0],
                  "Kiwix", "Kiwix ZIM file for " + parts[0])
  {
    var stem := Join(parts, '_');
    JoinAvoids(parts, '_', '/');
    NamePartsOfZimEntry(dir, stem);
    SplitJoin(parts, '_');
    MetadataOfParts(PathJoin(dir, stem + ".zim"), parts);
  }

  lemma MetadataOfParts(filepath: string, parts: seq<string>)
    requires |parts| >= 2 && NameParts(filepath) == parts
    ensures ZimMetadataOf(filepath) ==
      ZimMetadata(Join(parts[..|parts| - 1], '_'), parts[|parts| - 1], parts[1], parts[0],
                  "Kiwix", "Kiwix ZIM file for " + parts[0])
  {
  }

  /**
   * A file named `<stem>.zim` with no `_` in the stem (such as the tests'
   * `small.zim`) is its own name and creator, undated, in language `eng`.
   */
  lemma MetadataOfSingleName(dir: string, stem: string)
    requires stem != "" && '_' !in stem && '/' !in stem && !Contains(stem, ".zim")
    ensures ZimMetadataOf(PathJoin(dir, stem + ".zim")) ==
      ZimMetadata(stem, "", "eng", stem, "Kiwix", "Kiwix ZIM file for " + stem)
  {
    NamePartsOfZimEntry(dir, stem);
    SplitJoin([stem], '_');
  }

  /** The name parts of the entry `<stem>.zim` are those of its stem. */
  lemma NamePartsOfZimEntry(dir: string, stem: string)
    requires '/' !in stem && !Contains(stem, ".zim")
    ensures NameParts(PathJoin(dir, stem + ".zim")) == Split(stem, '_')
  {
    var file := stem + ".zim";
    assert forall i :: 0 <= i < |file| ==> file[i] != '/' by {
      assert forall i :: 0 <= i < |stem| ==> file[i] == stem[i];
      assert file[|stem|..] == ".zim";
    }
    BaseNameOfEntry(dir, file);
    RemoveZimSuffix(stem);
  }

  /** The `<book>` element for the entry `name` of the data directory. */
  function BookFor(dataDir: string, baseUrl: string, testing: bool, files: map<string, FileData>, name: string): Book {
    var path := PathJoin(dataDir, name);
    var md := ZimMetadataOf(path);
    Book("kiwix_" + md.name, path, md.name, md.creator, md.publisher, md.date, md.description, md.language,
         if path in files then SizeOf(files[path]) else 0,
         if testing then TestingUrl else baseUrl + md.creator + "/" + name)
  }

  /** The entries ending in `.zim`, in listing order; a listing without repeats gives each of them once. */
  function ZimNames(names: seq<string>): (zs: seq<string>)
    ensures forall n :: n in zs <==> n in names && EndsWith(n, ".zim")
    ensures (forall i, j :: 0 <= i < j < |names| ==> names[i] != names[j]) ==>
      forall i, j :: 0 <= i < j < |zs| ==> zs[i] != zs[j]
  {
    if names == [] then []
    else
      var prefix := names[..|names| - 1];
      var last := names[|names| - 1];
      var init := ZimNames(prefix);
      assert names == prefix + [last];
      assert (forall i, j :: 0 <= i < j < |names| ==> names[i] != names[j]) ==> last !in prefix;
      if EndsWith(last, ".zim") then init + [last] else init
  }

  /** A single name is selected exactly when it ends in `.zim`. */
  lemma ZimNamesSingle(n: string)
    ensures ZimNames([n]) == if EndsWith(n, ".zim") then [n] else []
  {
    assert [n][..0] == [];
  }

  /**
   * Selecting the `.zim` entries of two runs of a listing selects those of
   * the first, then those of the second; with the single-name case this
   * fixes the order and the number of times each entry is taken.
   */
  lemma {:induction false} ZimNamesConcat(a: seq<string>, b: seq<string>)
    ensures ZimNames(a + b) == ZimNames(a) + ZimNames(b)
    decreases |b|
  {
    if b == [] {
      assert a + b == a;
    } else {
      var b', last := b[..|b| - 1], b[|b| - 1];
      assert a + b == (a + b') + [last];
      assert b == b' + [last];
      ZimNamesConcat(a, b');
      ZimNamesSnoc(a + b', last);
      ZimNamesSnoc(b', last);
    }
  }

  lemma ZimNamesSnoc(names: seq<string>, last: string)
    ensures ZimNames(names + [last]) == ZimNames(names) + if EndsWith(last, ".zim") then [last] else []
  {
    assert (names + [last])[..|names|] == names;
  }

  /** The books of the catalogue, one per `.zim` entry, in listing order. */
  function BooksFor(dataDir: string, baseUrl: string, testing: bool, files: map<string, FileData>, names: seq<string>): seq<Book> {
    if names == [] then []
    else
      var init := BooksFor(dataDir, baseUrl, testing, files, names[..|names| - 1]);
      var n := names[|names| - 1];
      if EndsWith(n, ".zim") then init + [BookFor(dataDir, baseUrl, testing, files, n)] else init
  }

  function SumSizes(books: seq<Book>): int {
    if books == [] then 0 else SumSizes(books[..|books| - 1]) + books[|books| - 1].size
  }

  /** One more listed name adds its book when it is a `.zim` entry, and nothing otherwise. */
  lemma BooksForStep(dataDir: string, baseUrl: string, testing: bool, files: map<string, FileData>, names: seq<string>, i: nat)
    requires i < |names|
    ensures BooksFor(dataDir, baseUrl, testing, files, names[..i + 1]) ==
      if EndsWith(names[i], ".zim")
      then BooksFor(dataDir, baseUrl, testing, files, names[..i]) + [BookFor(dataDir, baseUrl, testing, files, names[i])]
      else BooksFor(dataDir, baseUrl, testing, files, names[..i])
  {
    assert names[..i + 1][..i] == names[..i];
  }

  lemma SumSizesSnoc(books: seq<Book>, b: Book)
    ensures SumSizes(books + [b]) == SumSizes(books) + b.size
  {
    assert (books + [b])[..|books|] == books;
  }

  /**
   * The book `b` catalogues the entry `name`: its title, creator, publisher,
   * date, description and language are the file name's metadata, its id is
   * `kiwix_` and its name, its path the entry's path, its size that file's
   * size, and its url the server's base, the creator and the file name
   * outside testing.
   */
  predicate CataloguedAs(dataDir: string, baseUrl: string, testing: bool, files: map<string, FileData>, b: Book, name: string) {
    var path := PathJoin(dataDir, name);
    var md := ZimMetadataOf(path);
    && b.id == "kiwix_" + b.title
    && b.title == md.name
    && b.creator == md.creator && b.publisher == md.publisher && b.date == md.date
    && b.description == md.description && b.language == md.language
    && b.path == path
    && (path in files ==> b.size == SizeOf(files[path]))
    && (!testing ==> b.url == baseUrl + b.creator + "/" + name)
    && (testing ==> b.url == TestingUrl)
  }

  lemma BookForCatalogues(dataDir: string, baseUrl: string, testing: bool, files: map<string, FileData>, name: string)
    ensures CataloguedAs(dataDir, baseUrl, testing, files, BookFor(dataDir, baseUrl, testing, files, name), name)
  {
  }

  /**
   * The catalogue holds exactly one book per `.zim` entry, in order: its id
   * is `kiwix_` and its name, its path the entry's path, its size that
   * file's size, and outside testing its url the server's base, the
   * creator and the file name.
   */
  lemma {:induction false} BooksMatchZimEntries(dataDir: string, baseUrl: string, testing: bool, files: map<string, FileData>, names: seq<string>)
    ensures var books := BooksFor(dataDir, baseUrl, testing, files, names);
      var zs := ZimNames(names);
      && |books| == |zs|
      && forall k :: 0 <= k < |books| ==> CataloguedAs(dataDir, baseUrl, testing, files, books[k], zs[k])
  {
    if names != [] {
      var init, n := names[..|names| - 1], names[|names| - 1];
      BooksMatchZimEntries(dataDir, baseUrl, testing, files, init);
      if EndsWith(n, ".zim") {
        BookForCatalogues(dataDir, baseUrl, testing, files, n);
        CataloguedSnoc(dataDir, baseUrl, testing, files,
          BooksFor(dataDir, baseUrl, testing, files, init), ZimNames(init), BookFor(dataDir, baseUrl, testing, files, n), n);
      }
    }
  }

  lemma CataloguedSnoc(dataDir: string, baseUrl: string, testing: bool, files: map<string, FileData>,
                       books: seq<Book>, zs: seq<string>, b: Book, z: string)
    requires |books| == |zs| && CataloguedAs(dataDir, baseUrl, testing, files, b, z)
    requires forall k :: 0 <= k < |books| ==> CataloguedAs(dataDir, baseUrl, testing, files, books[k], zs[k])
    ensures forall k :: 0 <= k < |books| + 1 ==> CataloguedAs(dataDir, baseUrl, testing, files, (books + [b])[k], (zs + [z])[k])
  {
    forall k | 0 <= k < |books| + 1
      ensures CataloguedAs(dataDir, baseUrl, testing, files, (books + [b])[k], (zs + [z])[k])
    {
      if k < |books| {
        assert (books + [b])[k] == books[k] && (zs + [z])[k] == zs[k];
      }
    }
  }

  datatype LibraryOutcome =
    | Published(totalSize: int)   // the new catalogue is in place
    | Failed                      // writing or renaming raised; the handler removed the `.tmp`
    | Escaped                     // listing the data directory raised, and so did the handler

  class LibraryManager {
    const config: Config
    const fs: FileSystem

    constructor (config: Config, fs: FileSystem)
      ensures this.config == config && this.fs == fs
    {
      this.config := config;
      this.fs := fs;
    }

    /**
     * `update_library`: one book per `.zim` entry of the data directory,
     * sizes totalled, the document written to `library_file.tmp` and
     * renamed onto `library_file`; on failure the `.tmp` is removed. When
     * the directory cannot be listed the handler itself raises (it reads
     * the temporary path before it is assigned) and nothing changes.
     * `order` is the order in which the directory was listed.
     */
    method UpdateLibrary(env: map<string, string>) returns (outcome: LibraryOutcome, ghost order: seq<string>)
      requires fs.Valid()
      modifies fs
      ensures fs.Valid() && fs.dirs == old(fs.dirs)
      ensures outcome.Escaped? <==> config.dataDir !in old(fs.dirs)
      ensures outcome.Escaped? ==> fs.files == old(fs.files)
      ensures !outcome.Escaped? ==>
        && (forall n :: n in order <==> n in old(fs.Entries(config.dataDir)))
        && (forall i, j :: 0 <= i < j < |order| ==> order[i] != order[j])
      ensures !outcome.Escaped? ==>
        var temp := config.libraryFile + ".tmp";
        var testing := IsTrueFlag(GetEnv(env, "TESTING", "false"));
        var doc := LibraryDocument(LibraryVersion, BooksFor(config.dataDir, config.baseUrl, testing, old(fs.files), order));
        && (outcome.Published? <==> CanWrite(old(fs.dirs), temp) && CanWrite(old(fs.dirs), config.libraryFile))
        && (outcome.Published? ==>
              fs.files == (old(fs.files) - {temp})[config.libraryFile := Catalog(doc)]
              && outcome.totalSize == SumSizes(doc.books))
        && (outcome.Failed? ==> fs.files == old(fs.files) - {temp})
        && temp !in fs.files
    {
      var listing := fs.ListDir(config.dataDir);
      if listing.None? {
        return Escaped, [];
      }
      var names := listing.value;
      order := names;
      var testing := IsTrueFlag(GetEnv(env, "TESTING", "false"));
      var books, totalSize := CollectBooks(names, testing);
      var doc := LibraryDocument(LibraryVersion, books);
      var published := WriteLibrary(doc);
      outcome := if published then Published(totalSize) else Failed;
    }

    /**
     * The tail of `update_library`: write the document to
     * `library_file.tmp` and rename it onto `library_file`; when either step
     * fails, remove the `.tmp`.
     */
    method WriteLibrary(doc: LibraryDocument) returns (ok: bool)
      requires fs.Valid()
      modifies fs
      ensures fs.Valid() && fs.dirs == old(fs.dirs)
      ensures var temp := config.libraryFile + ".tmp";
        && (ok <==> CanWrite(old(fs.dirs), temp) && CanWrite(old(fs.dirs), config.libraryFile))
        && fs.files == if ok then (old(fs.files) - {temp})[config.libraryFile := Catalog(doc)] else old(fs.files) - {temp}
    {
      var temp := config.libraryFile + ".tmp";
      assert |temp| != |config.libraryFile|;
      assert EndsWith(temp, ".tmp") by { assert temp[|temp| - 4..] == ".tmp"; }
      ok := fs.WriteDocument(temp, doc);
      if ok {
        ok := fs.Rename(temp, config.libraryFile);
      }
      if !ok {
        fs.Discard(temp);
      }
    }

    /**
     * The loop of `update_library` over the listed entries: a book for each
     * `.zim` file, and the sum of their sizes.
     */
    method CollectBooks(names: seq<string>, testing: bool) returns (books: seq<Book>, totalSize: int)
      requires fs.Valid()
      requires forall n :: n in names ==> n in fs.Entries(config.dataDir)
      ensures books == BooksFor(config.dataDir, config.baseUrl, testing, fs.files, names)
      ensures totalSize == SumSizes(books)
    {
      var dir := config.dataDir;
      totalSize := 0;
      books := [];
      var i := 0;
      while i < |names|
        invariant 0 <= i <= |names|
        invariant books == BooksFor(dir, config.baseUrl, testing, fs.files, names[..i])
        invariant totalSize == SumSizes(books)
      {
        var filename := names[i];
        BooksForStep(dir, config.baseUrl, testing, fs.files, names, i);
        if EndsWith(filename, ".zim") {
          var book := MakeBook(filename, testing);
          totalSize := totalSize + book.size;
          SumSizesSnoc(books, book);
          books := books + [book];
        }
        i := i + 1;
      }
      assert names[..i] == names;
    }

    /** The catalogue entry for one listed `.zim` file, sized by the file it names. */
    method MakeBook(filename: string, testing: bool) returns (book: Book)
      requires fs.Valid()
      requires filename in fs.Entries(config.dataDir) && EndsWith(filename, ".zim")
      ensures book == BookFor(config.dataDir, config.baseUrl, testing, fs.files, filename)
    {
      var filepath := PathJoin(config.dataDir, filename);
      EntryPathEndsWith(config.dataDir, filename, ".zim");
      assert filepath in fs.files;
      var size := SizeOf(fs.files[filepath]);
      var metadata := ZimMetadataOf(filepath);
      var url := if testing then TestingUrl else config.baseUrl + metadata.creator + "/" + filename;
      book := Book("kiwix_" + metadata.name, filepath, metadata.name, metadata.creator, metadata.publisher,
                   metadata.date, metadata.description, metadata.language, size, url);
    }

    /** `cleanup`: remove a leftover `library_file.tmp`. */
    method Cleanup()
      requires fs.Valid()
      modifies fs
      ensures fs.Valid() && fs.dirs == old(fs.dirs)
      ensures fs.files == old(fs.files) - {config.libraryFile + ".tmp"}
    {
      var temp := config.libraryFile + ".tmp";
      assert EndsWith(temp, ".tmp") by { assert temp[|temp| - 4..] == ".tmp"; }
      fs.Discard(temp);
    }
  }
}
