/**
 * A remote directory entry. `FileInfo` is its value (the five attributes the library
 * transports); `FTPFile` is the mutable bean that callers receive.
 */
module FtpFile {
  import opened Wrappers

  const TYPE_FILE: Int32 := 0
  const TYPE_DIRECTORY: Int32 := 1
  const TYPE_LINK: Int32 := 2

  /**
   * The attributes of a directory entry. A `java.util.Date` is kept as its millisecond
   * value; `None` stands for a null reference. ftp4j's own entry type, which the client
   * returns from `list`, has the same five attributes and is modelled by this value too.
   */
  datatype FileInfo = FileInfo(
    name: Option<string>,
    link: Option<string>,
    modifiedDate: Option<Int64>,
    size: Int64,
    fileType: Int32)

  /** The three entry kinds are told apart by distinct codes. */
  lemma TypeCodesDistinct()
    ensures TYPE_FILE != TYPE_DIRECTORY && TYPE_DIRECTORY != TYPE_LINK && TYPE_FILE != TYPE_LINK
  {
  }

  /** The mutable bean handed to the caller's `list` callback. */
  class FTPFile {
    var name: Option<string>
    var link: Option<string>
    var modifiedDate: Option<Int64>
    var size: Int64
    var fileType: Int32

    /** The bean's field values. */
    function View(): FileInfo
      reads this
    {
      FileInfo(name, link, modifiedDate, size, fileType)
    }

    /** A new bean has no name, link or date, size -1 and the plain-file type. */
    constructor ()
      ensures View() == FileInfo(None, None, None, -1, TYPE_FILE)
    {
      name, link, modifiedDate, size, fileType := None, None, None, -1, 0;
    }

    function GetName(): Option<string> reads this { name }
    function GetLink(): Option<string> reads this { link }
    function GetModifiedDate(): Option<Int64> reads this { modifiedDate }
    function GetSize(): Int64 reads this { size }
    function GetType(): Int32 reads this { fileType }

    method SetName(name: Option<string>)
      modifies this
      ensures GetName() == name
      ensures View() == old(View()).(name := name)
    {
      this.name := name;
    }

    method SetLink(link: Option<string>)
      modifies this
      ensures GetLink() == link
      ensures View() == old(View()).(link := link)
    {
      this.link := link;
    }

    method SetModifiedDate(modifiedDate: Option<Int64>)
      modifies this
      ensures GetModifiedDate() == modifiedDate
      ensures View() == old(View()).(modifiedDate := modifiedDate)
    {
      this.modifiedDate := modifiedDate;
    }

    method SetSize(size: Int64)
      modifies this
      ensures GetSize() == size
      ensures View() == old(View()).(size := size)
    {
      this.size := size;
    }

    method SetType(fileType: Int32)
      modifies this
      ensures GetType() == fileType
      ensures View() == old(View()).(fileType := fileType)
    {
      this.fileType := fileType;
    }
  }

  /** The field values of an array of beans, in order (what a callback receiving the array observes). */
  method Snapshot(files: array<FTPFile?>) returns (views: seq<FileInfo>)
    requires forall i :: 0 <= i < files.Length ==> files[i] != null
    ensures |views| == files.Length
    ensures forall i :: 0 <= i < files.Length ==> views[i] == files[i].View()
  {
    views := [];
    var i := 0;
    while i < files.Length
      invariant 0 <= i <= files.Length
      invariant |views| == i
      invariant forall j :: 0 <= j < i ==> views[j] == files[j].View()
    {
      views := views + [files[i].View()];
      i := i + 1;
    }
  }
}
