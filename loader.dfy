/** Loading a latent vector file. The decoders themselves (torch and numpy)
    are not modelled: a `Disk` says, per path, what decoding its bytes yields. */
module Loader {
  import opened Outcomes
  import opened Arrays

  /** A decoded value that the tool turns into an array: a tensor (converted
      with `.numpy()`) or any other value, which `np.array` coerces; the
      coercion is the decoder's business and is recorded as its result. */
  datatype Item = Tensor(contents: NdArray) | Coercible(contents: NdArray)

  /** What a .pt container decodes to: a dictionary, a list, or a single value.
      A dictionary is given by its entries as it stands after decoding, one
      per key, in insertion order (the order `keys()` lists them in). */
  datatype Payload =
    | Keyed(entries: seq<(string, Item)>)
    | Listed(items: seq<Item>)
    | Single(item: Item)

  /** What decoding a stored file gives. */
  datatype Stored = TorchFile(payload: Payload) | NumpyFile(array: NdArray) | Corrupt

  /** The files that exist, by path; a path outside the map does not exist. */
  type Disk = map<string, Stored>

  /** `s.endswith(suffix)`: the last `|suffix|` characters of `s` are those of `suffix`. */
  predicate HasSuffix(s: string, suffix: string)
    ensures HasSuffix(s, suffix) <==>
      |suffix| <= |s| && forall i | 0 <= i < |suffix| :: s[|s| - |suffix| + i] == suffix[i]
  {
    |suffix| <= |s| && s[|s| - |suffix|..] == suffix
  }

  /** The values a payload holds, in the order the container enumerates them. */
  function Enumerate(p: Payload): seq<Item>
  {
    match p
    case Keyed(entries) => seq(|entries|, i requires 0 <= i < |entries| => entries[i].1)
    case Listed(items) => items
    case Single(item) => [item]
  }

  /** Pick the value a .pt payload stands for: the value under the first key of
      a dictionary, the first element of a list, or the value itself. */
  function SelectData(p: Payload, path: string): (r: Result<Item>)
    ensures r.Ok? <==> |Enumerate(p)| > 0
    ensures r.Ok? ==> r.value == Enumerate(p)[0]
    ensures r.Err? ==> r.failure == (if p.Keyed? then EmptyDict(path) else EmptyList(path))
  {
    match p
    case Keyed(entries) => if |entries| == 0 then Err(EmptyDict(path)) else Ok(entries[0].1)
    case Listed(items) => if |items| == 0 then Err(EmptyList(path)) else Ok(items[0])
    case Single(item) => Ok(item)
  }

  /** Load the array stored at `path`, choosing the decoder by extension. */
  function LoadLatent(disk: Disk, path: string): (r: Result<NdArray>)
    ensures r.Ok? ==> path in disk && (HasSuffix(path, ".pt") || HasSuffix(path, ".npy"))
    ensures !HasSuffix(path, ".pt") && !HasSuffix(path, ".npy") ==> r == Err(UnsupportedFormat(path))
    ensures (HasSuffix(path, ".pt") || HasSuffix(path, ".npy")) && path !in disk ==> r == Err(FileNotFound(path))
    ensures path in disk && HasSuffix(path, ".pt") && !disk[path].TorchFile? ==> r == Err(Undecodable(path))
    ensures path in disk && !HasSuffix(path, ".pt") && HasSuffix(path, ".npy") && !disk[path].NumpyFile? ==>
      r == Err(Undecodable(path))
  {
    if HasSuffix(path, ".pt") then
      if path !in disk then Err(FileNotFound(path))
      else match disk[path]
        case TorchFile(p) =>
          (match SelectData(p, path)
           case Ok(x) => Ok(x.contents)
           case Err(f) => Err(f))
        case _ => Err(Undecodable(path))
    else if HasSuffix(path, ".npy") then
      if path !in disk then Err(FileNotFound(path))
      else match disk[path]
        case NumpyFile(a) => Ok(a)
        case _ => Err(Undecodable(path))
    else
      Err(UnsupportedFormat(path))
  }

  /** No path ends in both recognised extensions, so the dispatch is unambiguous. */
  lemma ExtensionsExclusive(path: string)
    ensures !(HasSuffix(path, ".pt") && HasSuffix(path, ".npy"))
  {
    if HasSuffix(path, ".pt") {
      assert path[|path| - 1] == 't';
    }
  }

  /** A .pt file whose payload holds at least one value loads as the first of them;
      a payload that holds none fails with the empty-container error. */
  lemma LoadTorchPayload(disk: Disk, path: string, p: Payload)
    requires HasSuffix(path, ".pt") && path in disk && disk[path] == TorchFile(p)
    ensures LoadLatent(disk, path).Ok? <==> |Enumerate(p)| > 0
    ensures |Enumerate(p)| > 0 ==> LoadLatent(disk, path) == Ok(Enumerate(p)[0].contents)
    ensures |Enumerate(p)| == 0 ==> LoadLatent(disk, path).failure in {EmptyDict(path), EmptyList(path)}
  {
  }

  /** Storing an array in a .npy file and loading it back gives the same array. */
  lemma LoadNumpyRoundTrip(disk: Disk, path: string, a: NdArray)
    requires HasSuffix(path, ".npy")
    ensures LoadLatent(disk[path := NumpyFile(a)], path) == Ok(a)
  {
    ExtensionsExclusive(path);
  }

  /** Saving a tensor (alone, in a list, or under a dictionary's only key) in a
      .pt file and loading it back gives the tensor's array. */
  lemma LoadTorchRoundTrip(disk: Disk, path: string, key: string, a: NdArray)
    requires HasSuffix(path, ".pt")
    ensures LoadLatent(disk[path := TorchFile(Single(Tensor(a)))], path) == Ok(a)
    ensures LoadLatent(disk[path := TorchFile(Listed([Tensor(a)]))], path) == Ok(a)
    ensures LoadLatent(disk[path := TorchFile(Keyed([(key, Tensor(a))]))], path) == Ok(a)
  {
  }
}
