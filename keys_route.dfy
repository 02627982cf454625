/** The API-key route: list, add and remove keys whose values live in the macOS keychain
    and whose metadata lives in an index file. The keychain is a map from account id to
    stored value, the index file a sequence of entries; the shell commands that reach them
    are not modelled. */
module KeysRoute {
  import opened Wrappers
  import Text
  import Seqs

  /** Eight bullets (U+2022). */
  const Mask := "\U{2022}\U{2022}\U{2022}\U{2022}\U{2022}\U{2022}\U{2022}\U{2022}"

  /** `maskKey`: short values are fully hidden; longer ones show their first and last four
      characters around eight bullets. */
  function MaskKey(value: string): (r: string)
    ensures |value| <= 8 ==> r == Mask
    ensures |value| > 8 ==>
      |r| == 16 && r[..4] == value[..4] && r[4..12] == Mask && r[12..] == value[|value| - 4..]
  {
    if |value| <= 8 then Mask else value[..4] + Mask + value[|value| - 4..]
  }

  /** The mask reveals nothing but the first and last four characters of a long value: two
      values get the same mask exactly when both are short, or both are long and agree on
      those eight characters. */
  lemma MaskRevealsOnlyEnds(v: string, w: string)
    ensures MaskKey(v) == MaskKey(w) <==>
      (|v| <= 8 && |w| <= 8)
      || (|v| > 8 && |w| > 8 && v[..4] == w[..4] && v[|v| - 4..] == w[|w| - 4..])
  {
    if MaskKey(v) == MaskKey(w) && |v| > 8 && |w| > 8 {
      assert MaskKey(v)[..4] == MaskKey(w)[..4];
      assert MaskKey(v)[12..] == MaskKey(w)[12..];
    }
  }

  // ---------------------------------------------------------------------------------------
  // Writing the index through `echo '<json>'`

  /** `json.replace(/'/g, "'\\''")`: every single quote becomes `'\''` (close the quote, an
      escaped quote, reopen the quote). */
  function EscapeQuotes(s: string): (r: string)
    ensures (forall i :: 0 <= i < |s| ==> s[i] != '\'') ==> r == s
  {
    if s == [] then []
    else (if s[0] == '\'' then "'\\''" else [s[0]]) + EscapeQuotes(s[1..])
  }

  /** The text a POSIX shell makes of a word built from single-quoted parts, backslash
      escapes and plain characters; `None` for a word with an open quote or a dangling
      backslash. `quoted` says whether a single quote is open. */
  function ShellWord(w: string, quoted: bool): Option<string> {
    if w == [] then (if quoted then None else Some([]))
    else if quoted then
      if w[0] == '\'' then ShellWord(w[1..], false) else Prepend(w[0], ShellWord(w[1..], true))
    else if w[0] == '\'' then ShellWord(w[1..], true)
    else if w[0] == '\\' then
      if |w| < 2 then None else Prepend(w[1], ShellWord(w[2..], false))
    else Prepend(w[0], ShellWord(w[1..], false))
  }

  function Prepend(c: char, r: Option<string>): Option<string> {
    if r.Some? then Some([c] + r.value) else None
  }

  /** The shell hands `echo` exactly the JSON text: quoting it as `saveStoredKeys` does
      loses and adds no character. */
  lemma EchoArgumentIsJson(json: string)
    ensures ShellWord("'" + EscapeQuotes(json) + "'", false) == Some(json)
  {
    var w := "'" + EscapeQuotes(json) + "'";
    assert w[1..] == EscapeQuotes(json) + "'";
    QuotedRoundTrip(json);
  }

  lemma {:induction false} QuotedRoundTrip(s: string)
    ensures ShellWord(EscapeQuotes(s) + "'", true) == Some(s)
  {
    if s == [] {
      assert EscapeQuotes(s) + "'" == "'" + [];
      CloseQuote([]);
    } else {
      var rest := EscapeQuotes(s[1..]) + "'";
      QuotedRoundTrip(s[1..]);
      assert s == [s[0]] + s[1..];
      if s[0] == '\'' {
        assert EscapeQuotes(s) + "'" == "'" + (['\\', '\''] + ("'" + rest));
        CloseQuote(['\\', '\''] + ("'" + rest));
        EscapedChar('\'', "'" + rest);
        OpenQuote(rest);
      } else {
        assert EscapeQuotes(s) + "'" == [s[0]] + rest;
        QuotedChar(s[0], rest);
      }
    }
  }

  lemma CloseQuote(rest: string)
    ensures ShellWord("'" + rest, true) == ShellWord(rest, false)
  {
    assert ("'" + rest)[1..] == rest;
  }

  lemma OpenQuote(rest: string)
    ensures ShellWord("'" + rest, false) == ShellWord(rest, true)
  {
    assert ("'" + rest)[1..] == rest;
  }

  lemma EscapedChar(c: char, rest: string)
    ensures ShellWord(['\\', c] + rest, false) == Prepend(c, ShellWord(rest, false))
  {
    assert (['\\', c] + rest)[2..] == rest;
  }

  lemma QuotedChar(c: char, rest: string)
    requires c != '\''
    ensures ShellWord([c] + rest, true) == Prepend(c, ShellWord(rest, true))
  {
    assert ([c] + rest)[1..] == rest;
  }

  // ---------------------------------------------------------------------------------------
  // The index and the handlers

  /** An entry of the index file: metadata only, never the value. */
  datatype StoredKey = StoredKey(id: string, name: string, service: string, createdAt: string)

  /** An entry of the GET reply. */
  datatype ListedKey = ListedKey(id: string, name: string, service: string,
                                 maskedValue: string, location: string, createdAt: string)

  /** The JSON reply of a handler, with its HTTP status where it is not 200. */
  datatype Response =
    | Created(id: string)
    | Listed(keys: seq<ListedKey>)
    | Deleted
    | Failed(status: nat, message: string)

  /** A request field is truthy: present and not the empty string. */
  predicate Present(field: Option<string>) {
    field.Some? && field.value != ""
  }

  /** What `getFromKeychain` returns: the stored value with surrounding white space trimmed,
      or `null` when the keychain has no such account. */
  function FromKeychain(keychain: map<string, string>, id: string): Option<string> {
    if id in keychain then Some(Text.Trim(keychain[id])) else None
  }

  /** One entry of the GET reply for an index entry and what the keychain returned for it. */
  function Listing(key: StoredKey, value: Option<string>): (r: ListedKey)
    ensures r.id == key.id && r.name == key.name && r.service == key.service
    ensures r.createdAt == key.createdAt && r.location == "keychain"
  {
    ListedKey(key.id, key.name, key.service,
              if Present(value) then MaskKey(value.value) else "(not found)",
              "keychain", key.createdAt)
  }

  /** A listed value reads `(not found)` exactly when the keychain had no value for the
      entry or only an empty (after trimming) one; otherwise it is the value's mask. */
  lemma NotFoundIffNoValue(key: StoredKey, value: Option<string>)
    ensures Listing(key, value).maskedValue == "(not found)" <==> !Present(value)
    ensures Present(value) ==> Listing(key, value).maskedValue == MaskKey(value.value)
  {
    if Present(value) {
      var m := MaskKey(value.value);
      assert |m| == 8 || |m| == 16;
      assert |"(not found)"| == 11;
    }
  }

  /** The id a new key gets: `<service>-<Date.now()>`. */
  function NewId(service: string, now: nat): string {
    service + "-" + Text.Decimal(now)
  }

  /** `keys.filter((k) => k.id !== id)`. */
  function WithoutId(index: seq<StoredKey>, id: string): seq<StoredKey> {
    Seqs.Filter(index, (k: StoredKey) => k.id != id)
  }

  /** Removing an id drops every entry with that id and keeps all others, in order and each
      as often as it occurs. */
  lemma WithoutIdSpec(index: seq<StoredKey>, id: string)
    ensures forall k :: k in WithoutId(index, id) ==> k.id != id
    ensures forall k :: k in index && k.id != id ==> k in WithoutId(index, id)
    ensures Seqs.IsSubsequence(WithoutId(index, id), index)
    ensures |WithoutId(index, id)| == Seqs.Count(index, (k: StoredKey) => k.id != id)
  {
    var keep := (k: StoredKey) => k.id != id;
    Seqs.FilterSpec(index, keep);
    forall k | k in index && k.id != id ensures k in WithoutId(index, id) {
      Seqs.FilterMembers(index, keep, k);
    }
  }

  /** The two stores the route reads and writes: the index file and the keychain. */
  class KeyStore {
    var index: seq<StoredKey>
    var keychain: map<string, string>

    constructor (index: seq<StoredKey>, keychain: map<string, string>)
      ensures this.index == index && this.keychain == keychain
    {
      this.index := index;
      this.keychain := keychain;
    }

    /** GET: one entry per index entry, in index order. */
    method List() returns (r: Response)
      ensures r.Listed? && |r.keys| == |index|
      ensures forall i :: 0 <= i < |index| ==>
        r.keys[i] == Listing(index[i], FromKeychain(keychain, index[i].id))
    {
      var keys: seq<ListedKey> := [];
      var i := 0;
      while i < |index|
        invariant 0 <= i <= |index| && |keys| == i
        invariant forall j :: 0 <= j < i ==>
          keys[j] == Listing(index[j], FromKeychain(keychain, index[j].id))
      {
        var value := FromKeychain(keychain, index[i].id);
        keys := keys + [Listing(index[i], value)];
        i := i + 1;
      }
      return Listed(keys);
    }

    /** POST: a key needs a name, a service and a value. Its value goes to the keychain
        under a fresh id first; only when that succeeded is one entry appended to the index.
        `stored` says whether the keychain accepted the value; the delete that precedes the
        add may already have removed an old value under that id. */
    method Add(name: Option<string>, service: Option<string>, value: Option<string>,
               now: nat, createdAt: string, stored: bool)
      returns (r: Response)
      modifies this
      ensures !(Present(name) && Present(service) && Present(value)) ==>
        r == Failed(400, "Name, service, and value required")
        && index == old(index) && keychain == old(keychain)
      ensures Present(name) && Present(service) && Present(value) && !stored ==>
        r == Failed(500, "Failed to store in keychain")
        && index == old(index) && keychain == old(keychain) - {NewId(service.value, now)}
      ensures Present(name) && Present(service) && Present(value) && stored ==>
        var id := NewId(service.value, now);
        && r == Created(id)
        && index == old(index) + [StoredKey(id, name.value, service.value, createdAt)]
        && keychain == old(keychain)[id := value.value]
    {
      if !Present(name) || !Present(service) || !Present(value) {
        return Failed(400, "Name, service, and value required");
      }
      var id := NewId(service.value, now);
      keychain := keychain - {id};
      if !stored {
        return Failed(500, "Failed to store in keychain");
      }
      keychain := keychain[id := value.value];
      var keys := index;
      keys := keys + [StoredKey(id, name.value, service.value, createdAt)];
      index := keys;
      return Created(id);
    }

    /** DELETE: needs an id; removes it from the keychain and every index entry with that
        id, and reports success. `deleted` says whether the keychain delete succeeded; when it
        failed the value stays in the keychain, and the index and the reply are the same. */
    method Remove(id: Option<string>, deleted: bool) returns (r: Response)
      modifies this
      ensures !Present(id) ==>
        r == Failed(400, "ID required") && index == old(index) && keychain == old(keychain)
      ensures Present(id) ==>
        && r == Deleted
        && keychain == (if deleted then old(keychain) - {id.value} else old(keychain))
        && index == WithoutId(old(index), id.value)
    {
      if !Present(id) {
        return Failed(400, "ID required");
      }
      if deleted {
        keychain := keychain - {id.value};
      }
      index := WithoutId(index, id.value);
      return Deleted;
    }
  }
}
