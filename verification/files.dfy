/**
  A simulated file with an explicit open/closed lifecycle.

  A file has a name, a state and a private byte buffer. Reading is refused
  unless the file is open; an open file appends its whole buffer to the
  caller's byte vector and reports how many bytes it appended. Opening and
  closing take the file over, set its state and hand it back.
*/
module Files {

  type Byte = b: int | 0 <= b < 256

  datatype FileState = Open | Closed

  datatype Result<T> = Ok(value: T) | Err(error: string)

  /** The error `read` reports for a file that is not open. */
  const NotOpenForReading: string := "File must be open for reading"

  /** A growable byte vector owned by a caller. */
  class ByteVec {
    var bytes: seq<Byte>

    constructor (bytes: seq<Byte>)
      ensures this.bytes == bytes
    {
      this.bytes := bytes;
    }
  }

  class File {
    var name: string
    var state: FileState
    var data: seq<Byte>

    /** A new file is closed and empty. */
    constructor New(name: string)
      ensures this.name == name && state == Closed && data == []
    {
      this.name := name;
      this.data := [];
      this.state := Closed;
    }

    /** A new closed file holding a copy of `data`. */
    constructor NewWithData(name: string, data: seq<Byte>)
      ensures this.name == name && state == Closed && this.data == data
    {
      this.name := name;
      this.data := data;
      this.state := Closed;
    }

    /** The file's length in bytes. */
    function Len(): (n: nat)
      reads this
      ensures n == |data|
    {
      |data|
    }

    /** Whether the file holds no data. */
    predicate IsEmpty()
      reads this
      ensures IsEmpty() <==> Len() == 0
    {
      data == []
    }

    /** The file's name. */
    function Name(): (s: string)
      reads this
      ensures s == name
    {
      name
    }

    /** Appends the whole contents to `saveTo` and returns the number of
        bytes appended; a file that is not open is refused and `saveTo` is
        left as it was. The file itself never changes. */
    method Read(saveTo: ByteVec) returns (r: Result<nat>)
      modifies saveTo
      ensures unchanged(this)
      ensures state != Open ==> r == Err(NotOpenForReading) && saveTo.bytes == old(saveTo.bytes)
      ensures state == Open ==> r == Ok(|data|) && saveTo.bytes == old(saveTo.bytes) + data
    {
      if state != Open {
        return Err(NotOpenForReading);
      }
      var tmp := data;
      var readLength := |tmp|;
      saveTo.bytes := saveTo.bytes + tmp;
      return Ok(readLength);
    }
  }

  /** Opening always succeeds: the same file comes back, now open, with its
      name and data as they were. */
  method OpenFile(f: File) returns (r: Result<File>)
    modifies f
    ensures r == Ok(f)
    ensures f.state == Open && f.name == old(f.name) && f.data == old(f.data)
  {
    f.state := Open;
    return Ok(f);
  }

  /** Closing always succeeds: the same file comes back, now closed, with its
      name and data as they were. */
  method CloseFile(f: File) returns (r: Result<File>)
    modifies f
    ensures r == Ok(f)
    ensures f.state == Closed && f.name == old(f.name) && f.data == old(f.data)
  {
    f.state := Closed;
    return Ok(f);
  }

  /** An opened file read into a vector holding `prefix` reports the length
      of `data` and leaves the vector holding `prefix` followed by `data`. */
  method OpenThenRead(name: string, data: seq<Byte>, prefix: seq<Byte>) returns (r: Result<nat>, saved: seq<Byte>)
    ensures r == Ok(|data|) && saved == prefix + data
  {
    var f := new File.NewWithData(name, data);
    var buffer := new ByteVec(prefix);
    var handed := OpenFile(f);
    r := handed.value.Read(buffer);
    saved := buffer.bytes;
  }

  /** A file that was never opened refuses to be read and leaves the vector
      as it was, whatever it holds. */
  method ReadBeforeOpen(name: string, data: seq<Byte>, prefix: seq<Byte>) returns (r: Result<nat>, saved: seq<Byte>)
    ensures r == Err(NotOpenForReading) && saved == prefix
  {
    var f := new File.NewWithData(name, data);
    var buffer := new ByteVec(prefix);
    r := f.Read(buffer);
    saved := buffer.bytes;
  }

  /** Closing twice leaves the file as closing once does, whether or not it
      was open before. */
  method CloseTwice(name: string, data: seq<Byte>, wasOpen: bool) returns (once: (string, FileState, seq<Byte>), twice: (string, FileState, seq<Byte>))
    ensures once == twice == (name, Closed, data)
  {
    var f := new File.NewWithData(name, data);
    if wasOpen {
      var g := OpenFile(f);
      f := g.value;
    }
    var c1 := CloseFile(f);
    once := (c1.value.name, c1.value.state, c1.value.data);
    var c2 := CloseFile(c1.value);
    twice := (c2.value.name, c2.value.state, c2.value.data);
  }

  /** The "5.txt" round: a new empty file refuses a read before it is opened,
      reads zero bytes once open, and closes again. */
  method FiveTxtRound() returns (before: Result<nat>, after: Result<nat>, buffer: seq<Byte>, endState: FileState)
    ensures before == Err(NotOpenForReading) && after == Ok(0) && buffer == [] && endState == Closed
  {
    var f5 := new File.New("5.txt");
    var buf := new ByteVec([]);
    before := f5.Read(buf);
    var handed := OpenFile(f5);
    f5 := handed.value;
    after := f5.Read(buf);
    var closed := CloseFile(f5);
    f5 := closed.value;
    buffer := buf.bytes;
    endState := f5.state;
  }
}
