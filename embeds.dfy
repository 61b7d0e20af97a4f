/**
 * The embed model: `WebhookField`, `WebhookFooter`, `WebhookEmbed` as
 * immutable values, and `WebhookEmbed.Builder` as a mutable object whose
 * setters overwrite one attribute each and whose `Build` takes a snapshot.
 * A Java `null` string is `None`.
 */
module Embeds {
  import opened Wrappers

  /** A field: a name, a value (either may be null in Java) and the inline hint. */
  datatype WebhookField = WebhookField(name: Option<string>, value: Option<string>, inline: bool)

  /** A footer: its text (nullable) and an optional icon URL. */
  datatype WebhookFooter = WebhookFooter(text: Option<string>, iconUrl: Option<string>)

  /** `new WebhookFooter(text)`: the one-argument constructor leaves the icon URL null. */
  function FooterWithText(text: Option<string>): (f: WebhookFooter)
    ensures f.text == text && f.iconUrl.None?
  {
    WebhookFooter(text, None)
  }

  /** A `java.time.Instant`: seconds since the epoch and a nanosecond adjustment. */
  datatype Instant = Instant(epochSecond: int, nano: Nanos)

  /** The nanosecond adjustment of an `Instant`, always below one second. */
  type Nanos = n: int | 0 <= n < 1_000_000_000

  /** A byte-sized colour channel. */
  type Channel = x: int | 0 <= x < 256

  /** A `java.awt.Color`: three colour channels and an alpha channel. */
  datatype Color = Color(red: Channel, green: Channel, blue: Channel, alpha: Channel)

  /** Reinterprets an unsigned 32-bit pattern as Java's signed `int`. */
  function ToInt32(u: int): (r: int)
    requires 0 <= u < 0x1_0000_0000
    ensures -0x8000_0000 <= r < 0x8000_0000
    ensures r % 0x1_0000_0000 == u
  {
    if u >= 0x8000_0000 then u - 0x1_0000_0000 else u
  }

  /**
   * `Color.getRGB()`: alpha in bits 24-31, red in 16-23, green in 8-15,
   * blue in 0-7, as a signed `int` (negative whenever alpha >= 128). The
   * channels occupy disjoint bits, so the bitwise or is a sum.
   */
  function GetRgb(c: Color): (rgb: int)
    ensures -0x8000_0000 <= rgb < 0x8000_0000
    ensures rgb < 0 <==> c.alpha >= 0x80
    // each channel reads back from its own byte
    ensures rgb % 0x100 == c.blue
    ensures (rgb / 0x100) % 0x100 == c.green
    ensures (rgb / 0x1_0000) % 0x100 == c.red
    ensures (rgb / 0x100_0000) % 0x100 == c.alpha
  {
    var high := if c.alpha >= 0x80 then c.alpha - 0x100 else c.alpha;
    var rgb := ToInt32(c.alpha * 0x100_0000 + c.red * 0x1_0000 + c.green * 0x100 + c.blue);
    var upper := high * 0x100 + c.red;
    var middle := upper * 0x100 + c.green;
    assert rgb == middle * 0x100 + c.blue;
    assert rgb == upper * 0x1_0000 + (c.green * 0x100 + c.blue);
    assert rgb == high * 0x100_0000 + (c.red * 0x1_0000 + c.green * 0x100 + c.blue);
    Shift8(middle, c.blue);
    Shift8(upper, c.green);
    Shift16(upper, c.green * 0x100 + c.blue);
    Shift8(high, c.red);
    Shift24(high, c.red * 0x1_0000 + c.green * 0x100 + c.blue);
    Shift8(if c.alpha >= 0x80 then -1 else 0, c.alpha);
    rgb
  }

  /** Euclidean division undoes a shift by 8 bits: `q` and the byte below read back. */
  lemma Shift8(q: int, low: int)
    requires 0 <= low < 0x100
    ensures (q * 0x100 + low) / 0x100 == q && (q * 0x100 + low) % 0x100 == low
  {
  }

  /** The same for a shift by 16 bits. */
  lemma Shift16(q: int, low: int)
    requires 0 <= low < 0x1_0000
    ensures (q * 0x1_0000 + low) / 0x1_0000 == q && (q * 0x1_0000 + low) % 0x1_0000 == low
  {
  }

  /** The same for a shift by 24 bits. */
  lemma Shift24(q: int, low: int)
    requires 0 <= low < 0x100_0000
    ensures (q * 0x100_0000 + low) / 0x100_0000 == q && (q * 0x100_0000 + low) % 0x100_0000 == low
  {
  }

  /**
   * `x & 0xFFFFFF` on a 32-bit two's-complement `int`: its low 24 bits,
   * which is the Euclidean remainder modulo 2^24 also for negative `x`.
   */
  function Low24(x: int): int {
    x % 0x100_0000
  }

  /**
   * What `Builder.color(Color)` stores: the alpha channel is dropped and the
   * result is the 24-bit RGB value, never negative.
   */
  function MaskedRgb(c: Color): (rgb: int)
    ensures 0 <= rgb <= 0xFF_FFFF
    ensures rgb == c.red * 0x1_0000 + c.green * 0x100 + c.blue
  {
    var low := c.red * 0x1_0000 + c.green * 0x100 + c.blue;
    var high := if c.alpha >= 0x80 then c.alpha - 0x100 else c.alpha;
    assert GetRgb(c) == high * 0x100_0000 + low;
    Shift24(high, low);
    Low24(GetRgb(c))
  }

  /** An embed; `fields` keeps insertion order. */
  datatype WebhookEmbed = WebhookEmbed(
    title: Option<string>,
    description: Option<string>,
    color: Option<int>,
    fields: seq<WebhookField>,
    footer: Option<WebhookFooter>,
    timestamp: Option<Instant>)

  /** `WebhookEmbed.Builder`: every setter overwrites only its own attribute. */
  class Builder {
    var title: Option<string>
    var description: Option<string>
    var color: Option<int>
    var fields: seq<WebhookField>
    var footer: Option<WebhookFooter>
    var timestamp: Option<Instant>

    /** The embed `Build` would produce now. */
    function Snapshot(): WebhookEmbed
      reads this
    {
      WebhookEmbed(title, description, color, fields, footer, timestamp)
    }

    /** A fresh builder: every attribute absent and no fields. */
    constructor ()
      ensures title.None? && description.None? && color.None?
      ensures footer.None? && timestamp.None?
      ensures fields == []
    {
      title, description, color := None, None, None;
      fields := [];
      footer, timestamp := None, None;
    }

    /** `title(String)`. */
    method Title(t: Option<string>)
      modifies this`title
      ensures title == t
    {
      title := t;
    }

    /** `description(String)`. */
    method Description(d: Option<string>)
      modifies this`description
      ensures description == d
    {
      description := d;
    }

    /** `color(int)`: the argument is stored as given, with no range check. */
    method ColorValue(c: int)
      modifies this`color
      ensures color == Some(c)
    {
      color := Some(c);
    }

    /** `color(Color)`: stores `getRGB() & 0xFFFFFF`. */
    method ColorRgb(c: Color)
      modifies this`color
      ensures color.Some? && 0 <= color.value <= 0xFF_FFFF
      ensures color == Some(c.red * 0x1_0000 + c.green * 0x100 + c.blue)
    {
      color := Some(MaskedRgb(c));
    }

    /** `addField(WebhookField)`: appends at the end. */
    method AddField(f: WebhookField)
      modifies this`fields
      ensures fields == old(fields) + [f]
    {
      fields := fields + [f];
    }

    /** `addField(name, value, inline)`: appends a new field at the end. */
    method AddNewField(name: Option<string>, value: Option<string>, inline: bool)
      modifies this`fields
      ensures |fields| == |old(fields)| + 1 && fields[..|old(fields)|] == old(fields)
      ensures fields[|old(fields)|] == WebhookField(name, value, inline)
    {
      fields := fields + [WebhookField(name, value, inline)];
    }

    /** `footer(WebhookFooter)`. */
    method Footer(f: Option<WebhookFooter>)
      modifies this`footer
      ensures footer == f
    {
      footer := f;
    }

    /** `footer(text, iconUrl)`. */
    method FooterOf(text: Option<string>, iconUrl: Option<string>)
      modifies this`footer
      ensures footer == Some(WebhookFooter(text, iconUrl))
    {
      footer := Some(WebhookFooter(text, iconUrl));
    }

    /** `timestamp(Instant)`. */
    method Timestamp(t: Option<Instant>)
      modifies this`timestamp
      ensures timestamp == t
    {
      timestamp := t;
    }

    /** `timestamp()`: the wall-clock reading is passed in as `now`. */
    method TimestampNow(now: Instant)
      modifies this`timestamp
      ensures timestamp == Some(now)
    {
      timestamp := Some(now);
    }

    /**
     * `build()`: a value carrying every attribute as it stands, the field
     * list included; the builder itself is left as it was.
     */
    method Build() returns (e: WebhookEmbed)
      ensures e.title == title && e.description == description && e.color == color
      ensures e.fields == fields && e.footer == footer && e.timestamp == timestamp
    {
      e := WebhookEmbed(title, description, color, fields, footer, timestamp);
    }
  }

  /**
   * `build` copies the field list: a field added to the builder after an
   * embed was built appears in the builder but not in that embed.
   */
  method BuildThenAddField(b: Builder, f: WebhookField) returns (e: WebhookEmbed)
    modifies b`fields
    ensures e == old(b.Snapshot())
    ensures b.fields == old(b.fields) + [f] && e.fields == old(b.fields)
  {
    e := b.Build();
    b.AddField(f);
  }

  /**
   * Setters are independent and the last call wins: setting the title twice
   * and the colour in between leaves the second title, the colour, and all
   * other attributes untouched.
   */
  method LastTitleWins(b: Builder, t1: Option<string>, t2: Option<string>, c: int)
    modifies b`title, b`color
    ensures b.title == t2 && b.color == Some(c)
    ensures b.description == old(b.description) && b.fields == old(b.fields)
    ensures b.footer == old(b.footer) && b.timestamp == old(b.timestamp)
  {
    b.Title(t1);
    b.ColorValue(c);
    b.Title(t2);
  }
}
