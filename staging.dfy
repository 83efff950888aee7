/** The two directories the enrichment stage works in: `temp`, where each
    record's files are written, and `data`, where finished files are committed
    by `move_files`; and the random identifiers the pipeline attaches to
    records, references, answers and sentences. */
module Staging {
  import opened Common

  /** A directory entry: a regular file holding a value, or a sub-directory. */
  datatype Entry<T> = File(content: T) | Dir

  type Directory<T> = map<string, Entry<T>>

  /** `os.path.isfile`: the name is present and is a regular file. */
  predicate IsFile<T>(d: Directory<T>, name: string) {
    name in d && d[name].File?
  }

  predicate IsDir<T>(d: Directory<T>, name: string) {
    name in d && d[name].Dir?
  }

  /** The regular files of a directory. */
  function FilesOf<T>(d: Directory<T>): (r: Directory<T>)
    ensures forall n :: n in r <==> IsFile(d, n)
    ensures forall n :: n in r ==> n in d && r[n] == d[n]
  {
    map n | n in d && d[n].File? :: d[n]
  }

  /** What `move_files` leaves behind: everything that is not a regular file. */
  function NonFiles<T>(d: Directory<T>): (r: Directory<T>)
    ensures forall n :: n in r <==> n in d && !d[n].File?
    ensures forall n :: n in r ==> n in d && r[n] == d[n]
  {
    map n | n in d && !d[n].File? :: d[n]
  }

  /** A regular file of `temp` whose name is a directory in `data`: replacing
      a directory by a file fails with `IsADirectoryError`. */
  predicate Clash<T>(temp: Directory<T>, data: Directory<T>) {
    exists n :: n in temp && IsFile(temp, n) && IsDir(data, n)
  }

  class Workspace<T> {
    var temp: Directory<T>
    var data: Directory<T>

    constructor(temp0: Directory<T>, data0: Directory<T>)
      ensures temp == temp0 && data == data0
    {
      temp := temp0;
      data := data0;
    }

    /** `move_files(temp, data)`: every regular file of `temp` is renamed into
        `data` under its own name, replacing a same-named file there. Entries
        are visited in the directory's own order, which is not known, so the
        loop picks any remaining name. The move stops with an exception at the
        first file whose name is a directory in `data`; the files moved before
        it stay moved. */
    method MoveFiles() returns (raised: bool)
      modifies this
      ensures raised <==> Clash(old(temp), old(data))
      ensures !raised ==> temp == NonFiles(old(temp)) && data == old(data) + FilesOf(old(temp))
      ensures MovedSome(old(temp), old(data), temp, data)
    {
      var names := temp.Keys;
      ghost var moved: set<string> := {};
      while names != {}
        invariant PartialMove(old(temp), old(data), names, moved, temp, data)
        decreases names
      {
        var name :| name in names;
        ghost var names0 := names;
        names := names - {name};
        if temp[name].File? {
          if name in data && data[name].Dir? {
            assert IsFile(old(temp), name) && IsDir(old(data), name);
            PartialMoveFacts(old(temp), old(data), names0, moved, temp, data);
            return true;
          }
          data := data[name := temp[name]];
          temp := temp - {name};
          moved := moved + {name};
        }
      }
      PartialMoveFacts(old(temp), old(data), names, moved, temp, data);
      return false;
    }
  }

  /** The state of `move_files` with the names `names` still to visit and the
      files `moved` renamed into `data`. */
  ghost predicate PartialMove<T>(t0: Directory<T>, d0: Directory<T>, names: set<string>, moved: set<string>,
                                 temp: Directory<T>, data: Directory<T>)
  {
    && names <= t0.Keys
    && moved == (set n | n in t0 && n !in names && t0[n].File?)
    && temp == (map n | n in t0 && (n in names || !t0[n].File?) :: t0[n])
    && data == d0 + (map n | n in moved :: t0[n])
    && (forall n :: n in moved ==> !IsDir(d0, n))
  }

  /** What holds after `move_files`, whether or not it stopped early: `data`
      loses nothing, and each of its entries is the old one or, in place of
      anything but a directory, a file of `temp`; every file of `temp` stays
      there or is in `data`; `temp` keeps its directories and gains nothing. */
  ghost predicate MovedSome<T>(t0: Directory<T>, d0: Directory<T>, temp: Directory<T>, data: Directory<T>) {
    && (forall n :: n in d0 ==> n in data)
    && (forall n :: n in data ==>
          (n in d0 && data[n] == d0[n]) || (IsFile(t0, n) && data[n] == t0[n] && !IsDir(d0, n)))
    && (forall n :: IsFile(t0, n) ==> (n in temp && temp[n] == t0[n]) || (n in data && data[n] == t0[n]))
    && (forall n :: n in t0 && !t0[n].File? ==> n in temp && temp[n] == t0[n])
    && (forall n :: n in temp ==> n in t0 && temp[n] == t0[n])
  }

  lemma PartialMoveFacts<T>(t0: Directory<T>, d0: Directory<T>, names: set<string>, moved: set<string>,
                            temp: Directory<T>, data: Directory<T>)
    requires PartialMove(t0, d0, names, moved, temp, data)
    ensures MovedSome(t0, d0, temp, data)
    ensures names == {} ==> temp == NonFiles(t0) && data == d0 + FilesOf(t0)
  {
    if names == {} {
      assert moved == FilesOf(t0).Keys;
      assert (map n | n in moved :: t0[n]) == FilesOf(t0);
    }
  }

  /** A character of `string.ascii_uppercase + string.ascii_lowercase + string.digits`. */
  predicate InAlphabet(c: char) {
    'A' <= c <= 'Z' || 'a' <= c <= 'z' || '0' <= c <= '9'
  }

  /** An identifier as `generate_random_code()` makes it with its default length. */
  predicate IsCode(s: string) {
    |s| == 10 && forall i :: 0 <= i < |s| ==> InAlphabet(s[i])
  }

  /** `generate_random_code(length)`: `length` characters drawn from the 62-letter
      alphabet; `range` of a negative length is empty. The drawing itself is
      nondeterministic here. */
  method GenerateRandomCode(length: int) returns (code: string)
    ensures |code| == (if length < 0 then 0 else length)
    ensures forall i :: 0 <= i < |code| ==> InAlphabet(code[i])
  {
    code := "";
    var k := 0;
    while k < length
      invariant 0 <= k <= (if length < 0 then 0 else length)
      invariant |code| == k
      invariant forall i :: 0 <= i < |code| ==> InAlphabet(code[i])
    {
      assert InAlphabet('A');
      var c :| InAlphabet(c);
      code := code + [c];
      k := k + 1;
    }
  }

  /** The default-length code used for every identifier of the pipeline. */
  method NewCode() returns (code: string)
    ensures IsCode(code)
  {
    code := GenerateRandomCode(10);
  }
}
