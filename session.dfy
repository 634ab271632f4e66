/**
 * Message content as the avatar uploader sees it: a chain of typed
 * segments, and the scan that picks the URL of the first image segment.
 */
module Session {

  /** The opaque identifier of a conversation (the unit of waiting state). */
  type SessionId = string

  datatype Option<T> = None | Some(value: T)

  /**
   * One segment of an inbound message chain. The handler distinguishes only
   * image segments, whose `url` attribute may be absent; every other kind of
   * segment is passed over.
   */
  datatype Segment =
    | Plain(text: string)
    | Image(url: Option<string>)
    | Other(kind: string)

  /** True when no segment of `chain` is an image. */
  ghost predicate NoImage(chain: seq<Segment>)
  {
    forall j :: 0 <= j < |chain| ==> !chain[j].Image?
  }

  /**
   * The URL the scan settles on: that of the first image segment in chain
   * order (even when that URL is absent or empty), or None when the chain
   * holds no image at all.
   */
  function FirstImageUrl(chain: seq<Segment>): Option<string>
  {
    if chain == [] then None
    else if chain[0].Image? then chain[0].url
    else FirstImageUrl(chain[1..])
  }

  /**
   * Python truthiness of the scanned URL: None and the empty string are
   * falsy, every other string is a URL worth fetching.
   */
  predicate Usable(imgUrl: Option<string>)
    ensures !Usable(imgUrl) <==> imgUrl == None || imgUrl == Some("")
  {
    imgUrl.Some? && imgUrl.value != ""
  }

  /** The `for seg in chain` scan that stops at the first image segment. */
  method ExtractImageUrl(chain: seq<Segment>) returns (imgUrl: Option<string>)
    ensures imgUrl == FirstImageUrl(chain)
  {
    imgUrl := None;
    for i := 0 to |chain|
      invariant imgUrl == None
      invariant FirstImageUrl(chain[i..]) == FirstImageUrl(chain)
    {
      assert chain[i..][0] == chain[i] && chain[i..][1..] == chain[i + 1..];
      if chain[i].Image? {
        imgUrl := chain[i].url;
        break;
      }
    }
  }

  /** The scan returns the URL of image segment `k` when every earlier segment is not an image. */
  lemma {:induction false} FirstImageUrlIsFirst(chain: seq<Segment>, k: nat)
    requires k < |chain| && chain[k].Image?
    requires forall j :: 0 <= j < k ==> !chain[j].Image?
    ensures FirstImageUrl(chain) == chain[k].url
  {
    if k > 0 {
      FirstImageUrlIsFirst(chain[1..], k - 1);
    }
  }

  /** With no image segment in the chain, the scan yields None. */
  lemma {:induction false} FirstImageUrlNoImage(chain: seq<Segment>)
    requires NoImage(chain)
    ensures FirstImageUrl(chain) == None
  {
    if chain != [] {
      assert NoImage(chain[1..]) by {
        forall j | 0 <= j < |chain[1..]| ensures !chain[1..][j].Image? {
          assert chain[1..][j] == chain[j + 1];
        }
      }
      FirstImageUrlNoImage(chain[1..]);
    }
  }

  /**
   * The scan stops at the first image: once `chain` holds an image, anything
   * appended after it (another image with a usable URL included) is never
   * looked at.
   */
  lemma {:induction false} FirstImageUrlIgnoresRest(chain: seq<Segment>, rest: seq<Segment>)
    requires !NoImage(chain)
    ensures FirstImageUrl(chain + rest) == FirstImageUrl(chain)
  {
    assert chain != [];
    assert (chain + rest)[0] == chain[0];
    if !chain[0].Image? {
      assert (chain + rest)[1..] == chain[1..] + rest;
      assert !NoImage(chain[1..]) by {
        var j :| 0 <= j < |chain| && chain[j].Image?;
        assert chain[1..][j - 1] == chain[j];
      }
      FirstImageUrlIgnoresRest(chain[1..], rest);
    }
  }
}
