/** File selection in client/src/components/FileUpload.tsx: the size and MIME-type check of
    `validateFile`, the accumulation of accepted files in `handleFileSelect`, and `removeFile`. */
module FileUpload {
  import opened Wrappers
  import opened Seqs
  import opened Text

  /** A file as the browser hands it over: name, size in bytes and MIME type. */
  datatype Picked = Picked(name: string, size: int, mime: string)

  /** The component's properties that validation reads; `maxSize` 0 is JavaScript-falsy and
      switches the size check off. The defaults are `AnyType` and 10 MiB. */
  datatype Rules = Rules(accept: string, maxSize: int)

  /** The accept value and list entry that admit every type. */
  const AnyType := "*/*"

  const DefaultRules := Rules(AnyType, 10 * 1024 * 1024)

  datatype Rejection = TooLarge | TypeNotAccepted

  datatype Status = Uploading | Completed | Failed

  datatype Item = Item(id: string, name: string, size: int, mime: string, url: string, uploadedAt: int, status: Status, progress: int)

  /** One entry of the accept list admits a type: the same type, `AnyType`, or a major-type
      wildcard such as "image/" followed by a star, for a type beginning with "image/". */
  predicate EntryAdmits(entry: string, mime: string) {
    || entry == mime
    || entry == AnyType
    || (EndsWith(entry, "/*") && StartsWith(mime, entry[..|entry| - 1]))
  }

  /** `acceptedTypes.some(...)`. */
  function AnyAdmits(entries: seq<string>, mime: string): (r: bool)
    ensures r <==> exists e :: e in entries && EntryAdmits(e, mime)
  {
    if entries == [] then false
    else EntryAdmits(entries[0], mime) || AnyAdmits(entries[1..], mime)
  }

  /** `accept.split(",").map(t => t.trim())`. */
  function AcceptList(accept: string): seq<string> {
    Map(Split(accept, ','), Trim)
  }

  predicate TypeAccepted(accept: string, mime: string) {
    accept == AnyType || AnyAdmits(AcceptList(accept), mime)
  }

  /** `validateFile(file)` (FileUpload.tsx:64-83): the size check comes first; the type is
      checked only for a file within the size limit. */
  function Validate(rules: Rules, f: Picked): (r: Option<Rejection>)
    ensures rules.maxSize != 0 && f.size > rules.maxSize ==> r == Some(TooLarge)
    ensures r == Some(TypeNotAccepted) <==> !(rules.maxSize != 0 && f.size > rules.maxSize) && !TypeAccepted(rules.accept, f.mime)
    ensures r.None? <==> !(rules.maxSize != 0 && f.size > rules.maxSize) && TypeAccepted(rules.accept, f.mime)
  {
    if rules.maxSize != 0 && f.size > rules.maxSize then Some(TooLarge)
    else if !TypeAccepted(rules.accept, f.mime) then Some(TypeNotAccepted)
    else None
  }

  /** With `AnyType` as the accept value or anywhere in the list every type passes. */
  lemma WildcardAdmitsAll(accept: string, mime: string)
    requires accept == AnyType || AnyType in AcceptList(accept)
    ensures TypeAccepted(accept, mime)
  {
    if accept != AnyType {
      assert EntryAdmits(AnyType, mime);
    }
  }

  /** A single major-type wildcard entry admits exactly the types that begin with its major
      type and a slash. */
  lemma MajorTypeEntry(major: string, mime: string)
    requires ',' !in major && major != [] && !IsSpace(major[0]) && major != "*"
    ensures var accept := major + "/*";
      TypeAccepted(accept, mime) <==> StartsWith(mime, major + "/")
  {
    var accept := major + "/*";
    WildcardAcceptList(major);
    assert accept != AnyType by {
      assert |accept| == |major| + 2;
      if |major| == 1 {
        assert accept[0] == major[0] && major != "*";
        assert accept[0] != '*';
      }
    }
    assert TypeAccepted(accept, mime) <==> EntryAdmits(accept, mime) by {
      var single: seq<string> := [accept];
      assert single[1..] == [];
    }
    assert accept[..|accept| - 1] == major + "/";
    assert EndsWith(accept, "/*");
    if accept == mime {
      assert mime[..|major| + 1] == major + "/";
    }
  }

  /** The accept list of a single major-type wildcard is that entry alone. */
  lemma WildcardAcceptList(major: string)
    requires ',' !in major && major != [] && !IsSpace(major[0])
    ensures AcceptList(major + "/*") == [major + "/*"]
  {
    var accept := major + "/*";
    var tail := "/*";
    assert tail[0] != ',' && tail[1] != ',';
    assert ',' !in accept;
    assert accept[0] == major[0] && accept[|accept| - 1] == '*';
    SingleEntry(accept);
  }

  /** A comma-free entry without white space at its ends is an accept list of one. */
  lemma SingleEntry(entry: string)
    requires ',' !in entry && entry != [] && !IsSpace(entry[0]) && !IsSpace(entry[|entry| - 1])
    ensures AcceptList(entry) == [entry]
  {
    SplitWithoutSep(entry, ',');
    TrimUnpadded(entry);
    var trimmed := Map([entry], Trim);
    assert |trimmed| == 1 && trimmed[0] == Trim(entry);
  }

  /** The item made for the `i`-th file of a batch; the fresh id
      (`Date.now().toString() + Math.random()`) and the object URL are the caller's. */
  function MakeItem(f: Picked, id: string, url: string, now: int): Item {
    Item(id, f.name, f.size, f.mime, url, now, Uploading, 0)
  }

  /** The items `handleFileSelect` builds from the first `k` files of a batch: rejected files
      are skipped, accepted ones keep their order. */
  function AcceptedItems(rules: Rules, batch: seq<Picked>, ids: seq<string>, urls: seq<string>, now: int, k: nat): (r: seq<Item>)
    requires k <= |batch| == |ids| == |urls|
    ensures |r| <= k
    decreases k
  {
    if k == 0 then []
    else
      var before := AcceptedItems(rules, batch, ids, urls, now, k - 1);
      if Validate(rules, batch[k - 1]).None? then before + [MakeItem(batch[k - 1], ids[k - 1], urls[k - 1], now)]
      else before
  }

  /** Every item comes from a file of the batch that passes validation, and every such file
      yields its item. */
  lemma AcceptedItemsExact(rules: Rules, batch: seq<Picked>, ids: seq<string>, urls: seq<string>, now: int, k: nat)
    requires k <= |batch| == |ids| == |urls|
    ensures var r := AcceptedItems(rules, batch, ids, urls, now, k);
      && (forall it :: it in r ==>
            exists i :: 0 <= i < k && Validate(rules, batch[i]).None? && it == MakeItem(batch[i], ids[i], urls[i], now))
      && (forall i :: 0 <= i < k && Validate(rules, batch[i]).None? ==> MakeItem(batch[i], ids[i], urls[i], now) in r)
  {
    var r := AcceptedItems(rules, batch, ids, urls, now, k);
    forall it | it in r
      ensures exists i :: 0 <= i < k && Validate(rules, batch[i]).None? && it == MakeItem(batch[i], ids[i], urls[i], now)
    {
      AcceptedItemSource(rules, batch, ids, urls, now, k, it);
    }
    forall i | 0 <= i < k && Validate(rules, batch[i]).None?
      ensures MakeItem(batch[i], ids[i], urls[i], now) in r
    {
      AcceptedFileYields(rules, batch, ids, urls, now, k, i);
    }
  }

  /** An item comes from a file of the first `k` that passes validation. */
  lemma {:induction false} AcceptedItemSource(rules: Rules, batch: seq<Picked>, ids: seq<string>, urls: seq<string>, now: int, k: nat, it: Item)
    requires k <= |batch| == |ids| == |urls|
    requires it in AcceptedItems(rules, batch, ids, urls, now, k)
    ensures exists i :: 0 <= i < k && Validate(rules, batch[i]).None? && it == MakeItem(batch[i], ids[i], urls[i], now)
    decreases k
  {
    var before := AcceptedItems(rules, batch, ids, urls, now, k - 1);
    var ok := Validate(rules, batch[k - 1]).None?;
    var item := MakeItem(batch[k - 1], ids[k - 1], urls[k - 1], now);
    assert AcceptedItems(rules, batch, ids, urls, now, k) == if ok then before + [item] else before;
    if it in before {
      AcceptedItemSource(rules, batch, ids, urls, now, k - 1, it);
      var i :| 0 <= i < k - 1 && Validate(rules, batch[i]).None? && it == MakeItem(batch[i], ids[i], urls[i], now);
      assert 0 <= i < k;
    } else {
      assert ok && it == item;
    }
  }

  /** A file among the first `k` that passes validation yields its item. */
  lemma {:induction false} AcceptedFileYields(rules: Rules, batch: seq<Picked>, ids: seq<string>, urls: seq<string>, now: int, k: nat, i: nat)
    requires k <= |batch| == |ids| == |urls|
    requires i < k && Validate(rules, batch[i]).None?
    ensures MakeItem(batch[i], ids[i], urls[i], now) in AcceptedItems(rules, batch, ids, urls, now, k)
    decreases k
  {
    if i < k - 1 {
      AcceptedFileYields(rules, batch, ids, urls, now, k - 1, i);
    }
  }

  /** Accepted files keep their order: the items of a longer prefix extend those of a
      shorter one. */
  lemma {:induction false} AcceptedItemsGrow(rules: Rules, batch: seq<Picked>, ids: seq<string>, urls: seq<string>, now: int, j: nat, k: nat)
    requires j <= k <= |batch| == |ids| == |urls|
    ensures var short := AcceptedItems(rules, batch, ids, urls, now, j);
      var long := AcceptedItems(rules, batch, ids, urls, now, k);
      |short| <= |long| && short == long[..|short|]
    decreases k
  {
    if j < k {
      var short := AcceptedItems(rules, batch, ids, urls, now, j);
      var mid := AcceptedItems(rules, batch, ids, urls, now, k - 1);
      var long := AcceptedItems(rules, batch, ids, urls, now, k);
      AcceptedItemsGrow(rules, batch, ids, urls, now, j, k - 1);
      assert long == mid || long == mid + [MakeItem(batch[k - 1], ids[k - 1], urls[k - 1], now)];
      assert long[..|mid|] == mid;
    }
  }

  /** Dropping the files with an id (`removeFile`, FileUpload.tsx:177-185). */
  function Removed(files: seq<Item>, id: string): (r: seq<Item>)
    ensures |r| <= |files|
    ensures forall it :: it in r <==> it in files && it.id != id
  {
    Filter(files, (it: Item) => it.id != id)
  }

  /** The component's file list. */
  class Uploader {
    const rules: Rules
    const multiple: bool
    var files: seq<Item>

    constructor (rules: Rules, multiple: bool)
      ensures this.rules == rules && this.multiple == multiple && files == []
    {
      this.rules := rules;
      this.multiple := multiple;
      files := [];
    }

    /** `handleFileSelect` (FileUpload.tsx:86-115): the accepted files are appended with
        `multiple` and replace the list without it; a batch with none accepted changes
        nothing. Returns the accepted items, which go on to the simulated upload. */
    method Select(batch: seq<Picked>, ids: seq<string>, urls: seq<string>, now: int) returns (newFiles: seq<Item>)
      requires |batch| == |ids| == |urls|
      modifies this`files
      ensures newFiles == AcceptedItems(rules, batch, ids, urls, now, |batch|)
      ensures newFiles == [] ==> files == old(files)
      ensures newFiles != [] && multiple ==> files == old(files) + newFiles
      ensures newFiles != [] && !multiple ==> files == newFiles
    {
      newFiles := [];
      var i := 0;
      while i < |batch|
        invariant 0 <= i <= |batch|
        invariant newFiles == AcceptedItems(rules, batch, ids, urls, now, i)
      {
        var error := Validate(rules, batch[i]);
        if error.None? {
          newFiles := newFiles + [MakeItem(batch[i], ids[i], urls[i], now)];
        }
        i := i + 1;
      }
      if |newFiles| > 0 {
        if multiple {
          files := files + newFiles;
        } else {
          files := newFiles;
        }
      }
    }

    /** `removeFile(fileId)`; revoking the object URL is not modelled. */
    method Remove(id: string)
      modifies this`files
      ensures files == Removed(old(files), id)
    {
      files := Removed(files, id);
    }
  }
}
