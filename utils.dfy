/** The URL builders of `src/lib/utils.ts`: the WhatsApp chat link and the rewriting of
    Google Drive share links into thumbnail links. `encodeURIComponent` is a parameter. */
module Utils {
  import opened Types
  import opened Text
  import opened Seqs
  import Sanitize

  // ---------------------------------------------------------------------------------------
  // getWhatsAppUrl

  const WhatsAppDefaultMessage: string :=
    "Hey, I am interested in learning more about Padmalaya Group properties. Could you please share more details?"
  const WhatsAppBase: string := "https://wa.me/"
  const TextQuery: string := "?text="

  /** `getWhatsAppUrl`: the digits of the number, then the encoded message, the default one
      when the caller gives none. */
  function WhatsAppUrl(number: string, message: Option<string>, encode: string -> string): (url: string)
  {
    WhatsAppBase + Filter(number, IsDigit) + TextQuery + encode(message.GetOr(WhatsAppDefaultMessage))
  }

  /** The link splits back into its parts: the fixed base, a run of digits that is exactly
      the digits of the number in order, and after `?text=` the encoded message. */
  lemma WhatsAppUrlParts(number: string, message: Option<string>, encode: string -> string)
    ensures var url := WhatsAppUrl(number, message, encode);
      var rest := url[|WhatsAppBase|..];
      && StartsWith(url, WhatsAppBase)
      && BeforeFirst(rest, '?') == Filter(number, IsDigit)
      && AllDigits(BeforeFirst(rest, '?'))
      && rest[|BeforeFirst(rest, '?')|..] == TextQuery + encode(message.GetOr(WhatsAppDefaultMessage))
  {
    var url := WhatsAppUrl(number, message, encode);
    var digits := Filter(number, IsDigit);
    var tail := TextQuery + encode(message.GetOr(WhatsAppDefaultMessage));
    assert url == WhatsAppBase + (digits + tail);
    assert url[|WhatsAppBase|..] == digits + tail;
    assert '?' !in digits;
    BeforeFirstAppend(digits, tail, '?');
  }

  /** Cutting at the first `sep` of `a + b`, where `a` has no `sep` and `b` starts with one,
      gives `a`. */
  lemma {:induction false} BeforeFirstAppend(a: string, b: string, sep: char)
    requires sep !in a && b != [] && b[0] == sep
    ensures BeforeFirst(a + b, sep) == a
  {
    if a == [] {
      assert a + b == b;
    } else {
      assert (a + b)[1..] == a[1..] + b;
      BeforeFirstAppend(a[1..], b, sep);
    }
  }

  /** The link does not depend on how the number is formatted: sanitizing it first gives the
      same link. */
  lemma WhatsAppUrlIgnoresFormatting(number: string, message: Option<string>, encode: string -> string)
    ensures WhatsAppUrl(Sanitize.SanitizePhone(number), message, encode) == WhatsAppUrl(number, message, encode)
  {
    Sanitize.SanitizePhoneKeepsDigits(number);
  }

  // ---------------------------------------------------------------------------------------
  // convertGoogleDriveUrl

  /** `[a-zA-Z0-9_-]` */
  predicate IsIdChar(c: char)
  {
    IsLetter(c) || IsDigit(c) || c == '_' || c == '-'
  }

  /** The greedy `[a-zA-Z0-9_-]+` at the start of `s`: its longest prefix of identifier
      characters. */
  function IdRun(s: string): (id: string)
    ensures StartsWith(s, id)
    ensures forall i :: 0 <= i < |id| ==> IsIdChar(id[i])
    ensures |id| < |s| ==> !IsIdChar(s[|id|])
  {
    if s != [] && IsIdChar(s[0]) then [s[0]] + IdRun(s[1..]) else []
  }

  /** `/\/d\/([a-zA-Z0-9_-]+)/` can match at position `i`. */
  predicate SlashDAt(s: string, i: int)
  {
    0 <= i && i + 3 < |s| && s[i] == '/' && s[i + 1] == 'd' && s[i + 2] == '/' && IsIdChar(s[i + 3])
  }

  /** `/[?&]id=([a-zA-Z0-9_-]+)/` can match at position `i`. */
  predicate IdParamAt(s: string, i: int)
  {
    0 <= i && i + 4 < |s| && (s[i] == '?' || s[i] == '&') && s[i + 1] == 'i' && s[i + 2] == 'd'
    && s[i + 3] == '=' && IsIdChar(s[i + 4])
  }

  /** The leftmost position at or after `from` where `at` holds, as `String.prototype.match`
      scans for a regular expression without the global flag. */
  function FirstMatch(s: string, from: nat, at: (string, int) -> bool): (r: Option<nat>)
    ensures r.Some? ==> from <= r.value < |s| && at(s, r.value)
    ensures forall j :: from <= j < (if r.Some? then r.value else |s|) ==> !at(s, j)
    decreases |s| - from
  {
    if from >= |s| then None
    else if at(s, from) then Some(from)
    else FirstMatch(s, from + 1, at)
  }

  const ThumbnailBase: string := "https://drive.google.com/thumbnail?id="
  const ThumbnailSize: string := "&sz=w1000"

  /** The thumbnail link of a file. */
  function Thumbnail(id: string): string
  {
    ThumbnailBase + id + ThumbnailSize
  }

  /** `convertGoogleDriveUrl`: a `/d/<id>` link, else a `?id=<id>` or `&id=<id>` link, becomes
      the thumbnail link of the first such identifier; anything else is kept. */
  function ConvertGoogleDriveUrl(url: string): string
  {
    if url == "" then ""
    else
      match FirstMatch(url, 0, SlashDAt)
      case Some(i) => Thumbnail(IdRun(url[i + 3..]))
      case None =>
        match FirstMatch(url, 0, IdParamAt)
        case Some(i) => Thumbnail(IdRun(url[i + 4..]))
        case None => url
  }

  /** The `/d/` form wins over the `id=` form, and the identifier taken is the longest run
      after the leftmost `/d/`. */
  lemma ConvertSlashD(url: string, i: int)
    requires SlashDAt(url, i) && forall j :: 0 <= j < i ==> !SlashDAt(url, j)
    ensures ConvertGoogleDriveUrl(url) == Thumbnail(IdRun(url[i + 3..]))
    ensures IdRun(url[i + 3..]) != ""
  {
    assert FirstMatch(url, 0, SlashDAt) == Some(i);
  }

  /** Without a `/d/` form, the identifier taken is the longest run after the leftmost
      `?id=` or `&id=`. */
  lemma ConvertIdParam(url: string, i: int)
    requires forall j :: !SlashDAt(url, j)
    requires IdParamAt(url, i) && forall j :: 0 <= j < i ==> !IdParamAt(url, j)
    ensures ConvertGoogleDriveUrl(url) == Thumbnail(IdRun(url[i + 4..]))
    ensures IdRun(url[i + 4..]) != ""
  {
    assert FirstMatch(url, 0, SlashDAt).None?;
    assert FirstMatch(url, 0, IdParamAt) == Some(i);
  }

  /** The empty string, and a link of neither form, come back as they are. */
  lemma ConvertKeeps(url: string)
    requires forall j :: !SlashDAt(url, j) && !IdParamAt(url, j)
    ensures ConvertGoogleDriveUrl(url) == url
  {
    if url != "" {
      assert FirstMatch(url, 0, SlashDAt).None?;
      assert FirstMatch(url, 0, IdParamAt).None?;
    }
  }

  /** Where the characters of a thumbnail link are `/`, `?` or `&`: only inside the fixed
      parts, since an identifier has none. */
  lemma ThumbnailPunctuation(id: string, k: int)
    requires forall i :: 0 <= i < |id| ==> IsIdChar(id[i])
    requires 0 <= k < |Thumbnail(id)|
    ensures Thumbnail(id)[k] == '/' ==> k == 6 || k == 7 || k == 24
    ensures Thumbnail(id)[k] == '?' ==> k == 34
    ensures Thumbnail(id)[k] == '&' ==> k == |ThumbnailBase| + |id|
  {
    var t := Thumbnail(id);
    if k < |ThumbnailBase| {
      assert t[k] == ThumbnailBase[k];
    } else if k < |ThumbnailBase| + |id| {
      assert t[k] == id[k - |ThumbnailBase|];
    } else {
      assert t[k] == ThumbnailSize[k - |ThumbnailBase| - |id|];
    }
  }

  /** A thumbnail link holds no `/d/` followed by an identifier character. */
  lemma ThumbnailHasNoSlashD(id: string)
    requires forall i :: 0 <= i < |id| ==> IsIdChar(id[i])
    ensures forall j :: !SlashDAt(Thumbnail(id), j)
  {
    forall j | SlashDAt(Thumbnail(id), j)
      ensures false
    {
      ThumbnailPunctuation(id, j);
      ThumbnailPunctuation(id, j + 2);
    }
  }

  /** The first `?id=` or `&id=` of a thumbnail link is the one before the identifier. */
  lemma ThumbnailIdParam(id: string)
    requires id != [] && forall i :: 0 <= i < |id| ==> IsIdChar(id[i])
    ensures IdParamAt(Thumbnail(id), 34)
    ensures forall j :: 0 <= j < 34 ==> !IdParamAt(Thumbnail(id), j)
  {
    forall j | 0 <= j < 34 && IdParamAt(Thumbnail(id), j)
      ensures false
    {
      ThumbnailPunctuation(id, j);
    }
    var t := Thumbnail(id);
    assert t[34..38] == "?id=";
    assert t[38] == id[0];
  }

  /** A thumbnail link converts to itself. */
  lemma ThumbnailFixed(id: string)
    requires id != [] && forall i :: 0 <= i < |id| ==> IsIdChar(id[i])
    ensures ConvertGoogleDriveUrl(Thumbnail(id)) == Thumbnail(id)
  {
    var t := Thumbnail(id);
    ThumbnailHasNoSlashD(id);
    ThumbnailIdParam(id);
    assert t[34 + 4..] == id + ThumbnailSize;
    IdRunStops(id, ThumbnailSize);
    ConvertIdParam(t, 34);
  }

  /** The identifier run of `id + rest` is `id` when `rest` starts with a non-identifier
      character. */
  lemma {:induction false} IdRunStops(id: string, rest: string)
    requires forall i :: 0 <= i < |id| ==> IsIdChar(id[i])
    requires rest != [] && !IsIdChar(rest[0])
    ensures IdRun(id + rest) == id
  {
    if id == [] {
      assert id + rest == rest;
    } else {
      assert (id + rest)[1..] == id[1..] + rest;
      IdRunStops(id[1..], rest);
    }
  }

  /** Converting a converted link changes nothing: the output is a thumbnail link, which
      converts to itself, or a link of neither form, which is kept. */
  lemma ConvertIdempotent(url: string)
    ensures ConvertGoogleDriveUrl(ConvertGoogleDriveUrl(url)) == ConvertGoogleDriveUrl(url)
  {
    if url != "" {
      var a := FirstMatch(url, 0, SlashDAt);
      var b := FirstMatch(url, 0, IdParamAt);
      if a.Some? {
        ThumbnailFixed(IdRun(url[a.value + 3..]));
      } else if b.Some? {
        ThumbnailFixed(IdRun(url[b.value + 4..]));
      }
    }
  }
}
