/**
 * core/embed.py: embed fields and the two helpers the bot adds to the
 * platform's embed. Field names and values are modelled by their rendered
 * text (what `str()` gives), which is what the length counts.
 */
module Embeds {

  import opened Wrappers

  /** A frozen field record; `inline` defaults to true. */
  datatype EmbedField = EmbedField(name: string, value: string, inline: bool := true)

  /** `len(field)`: characters in the rendered name plus characters in the rendered value. */
  function Length(f: EmbedField): nat {
    |f.name| + |f.value|
  }

  /** A field's length counts the characters of its name and its value; layout does not count. */
  lemma LengthCountsNameAndValue(f: EmbedField, inline: bool)
    ensures Length(f) == |f.name| + |f.value|
    ensures Length(f.(inline := inline)) == Length(f)
  {
  }

  /** A field built without an `inline` argument is inline. */
  lemma InlineByDefault(name: string, value: string)
    ensures EmbedField(name, value).inline
  {
  }

  /** The list in the opposite order. */
  function Reversed<T>(s: seq<T>): (r: seq<T>)
    ensures |r| == |s|
  {
    if s == [] then [] else [s[|s| - 1]] + Reversed(s[..|s| - 1])
  }

  /** Reversing moves the element at index k to index n - 1 - k. */
  lemma {:induction false} ReversedAt<T>(s: seq<T>, k: nat)
    requires k < |s|
    ensures Reversed(s)[k] == s[|s| - 1 - k]
  {
    if k > 0 {
      ReversedAt(s[..|s| - 1], k - 1);
    }
  }

  /** Reversing twice gives back the original order. */
  lemma {:induction false} ReversedTwice<T>(s: seq<T>)
    ensures Reversed(Reversed(s)) == s
  {
    var r := Reversed(s);
    forall k | 0 <= k < |s|
      ensures Reversed(r)[k] == s[k]
    {
      ReversedAt(r, k);
      ReversedAt(s, |s| - 1 - k);
    }
  }

  /**
   * The platform's embed as far as these helpers touch it: its field list,
   * which does not exist until the first field is added (`None`).
   */
  class CustomEmbed {
    var fields: Option<seq<EmbedField>>

    constructor ()
      ensures fields == None
    {
      fields := None;
    }

    /** `add_custom_field`: hands the field's name, value and inline flag to `add_field`, which appends. */
    method AddCustomField(field: EmbedField) returns (self: CustomEmbed)
      modifies this
      ensures self == this
      ensures fields == Some(old(fields).GetOr([]) + [EmbedField(field.name, field.value, field.inline)])
    {
      fields := Some(fields.GetOr([]) + [EmbedField(field.name, field.value, field.inline)]);
      self := this;
    }

    /** `reverse_fields`: reverses the field list in place; without a list nothing happens and nothing is raised. */
    method ReverseFields()
      modifies this
      ensures old(fields).None? ==> fields == None
      ensures old(fields).Some? ==> fields == Some(Reversed(old(fields).value))
    {
      match fields
      case None =>
      case Some(fs) => fields := Some(Reversed(fs));
    }
  }

  /** Calling `reverse_fields` twice leaves the embed as it was. */
  method ReverseFieldsTwice(e: CustomEmbed)
    modifies e
    ensures e.fields == old(e.fields)
  {
    e.ReverseFields();
    e.ReverseFields();
    if e.fields.Some? {
      ReversedTwice(old(e.fields).value);
    }
  }
}
