/** Assembly of the outbound message text: a bold heading, an optional time
    line, an optional login block, and an "Other" section listing every field
    that has no place of its own. */
module MessageText {
  import opened JsObjects
  import opened Escaping
  import opened Headings

  /** The eight fields the message formats explicitly; all others are extras. */
  const Recognized: set<string> :=
    {"submittedAt", "loginPhone", "loginPin", "otp", "plan", "loanAmount", "loanPeriod", "employment"}

  /* ---------------- the sections, as a specification ---------------- */

  function HeadingBlock(h: string): string {
    "<b>" + Escape(h) + "</b>\n\n"
  }

  function TimeBlock(p: Payload): (r: string)
    ensures r != "" <==> Truthy(Get(p, "submittedAt"))
  {
    var t := Get(p, "submittedAt");
    if Truthy(t) then "<b>Time:</b> " + EscHtml(t) + "\n\n" else ""
  }

  function PinLine(p: Payload): (r: string)
    ensures r != "" <==> Truthy(Get(p, "loginPin"))
  {
    var pin := Get(p, "loginPin");
    if Truthy(pin) then "<b>PIN:</b> " + EscHtml(pin) + "\n" else ""
  }

  function OtpLine(p: Payload): (r: string)
    ensures r != "" <==> Truthy(Get(p, "otp"))
  {
    var otp := Get(p, "otp");
    if Truthy(otp) then "<b>OTP:</b> " + EscHtml(otp) + "\n" else ""
  }

  /** Present only with a truthy phone; the PIN and code lines inside it only
      for truthy values. */
  function LoginBlock(p: Payload): (r: string)
    ensures r != "" <==> Truthy(Get(p, "loginPhone"))
  {
    var phone := Get(p, "loginPhone");
    if Truthy(phone) then
      "<b>Login details:</b>\n" + ("<b>Phone:</b> " + EscHtml(phone) + "\n") + PinLine(p) + OtpLine(p) + "\n"
    else ""
  }

  /** The fields left after deleting the eight recognised ones. */
  function Extras(p: Payload): Payload {
    Without(p, Recognized)
  }

  function OtherLine(k: string, v: Value): string {
    "<b>" + Escape(k) + ":</b> " + Short(v) + "\n"
  }

  /** One line per key of `keys`, in that order, with the value e holds. */
  function OtherLines(e: Payload, keys: seq<string>): string {
    if keys == [] then ""
    else OtherLines(e, keys[..|keys| - 1]) + OtherLine(keys[|keys| - 1], Get(e, keys[|keys| - 1]))
  }

  function OtherBlock(e: Payload): (r: string)
    ensures r != "" <==> e.keys != []
  {
    if |e.keys| == 0 then "" else "<b>Other:</b>\n" + OtherLines(e, e.keys)
  }

  /** The whole message, section after section. */
  function Message(p: Payload): string {
    HeadingBlock(Heading(p)) + TimeBlock(p) + LoginBlock(p) + OtherBlock(Extras(p))
  }

  /* ---------------- the handler's statements ---------------- */

  /** The eight recognised keys, in the order the handler deletes them. */
  lemma RecognizedInDeletionOrder()
    ensures {"submittedAt"} + {"loginPhone"} + {"loginPin"} + {"otp"} + {"plan"}
            + {"loanAmount"} + {"loanPeriod"} + {"employment"} == Recognized
  {
  }

  /** One more `delete` on an object from which `deleted` is already gone. */
  lemma DeleteOneMore(payload: Payload, extras: Payload, deleted: set<string>, k: string)
    requires extras == Without(payload, deleted)
    ensures Without(extras, {k}) == Without(payload, deleted + {k})
  {
    WithoutTwice(payload, deleted, {k});
  }

  /** `const extras = { ...payload }` followed by eight `delete`s. */
  method OtherFields(payload: Payload) returns (extras: Payload)
    ensures extras == Extras(payload)
  {
    extras := Without(payload, {"submittedAt"});
    ghost var deleted := {"submittedAt"};
    DeleteOneMore(payload, extras, deleted, "loginPhone");
    extras, deleted := Without(extras, {"loginPhone"}), deleted + {"loginPhone"};
    DeleteOneMore(payload, extras, deleted, "loginPin");
    extras, deleted := Without(extras, {"loginPin"}), deleted + {"loginPin"};
    DeleteOneMore(payload, extras, deleted, "otp");
    extras, deleted := Without(extras, {"otp"}), deleted + {"otp"};
    DeleteOneMore(payload, extras, deleted, "plan");
    extras, deleted := Without(extras, {"plan"}), deleted + {"plan"};
    DeleteOneMore(payload, extras, deleted, "loanAmount");
    extras, deleted := Without(extras, {"loanAmount"}), deleted + {"loanAmount"};
    DeleteOneMore(payload, extras, deleted, "loanPeriod");
    extras, deleted := Without(extras, {"loanPeriod"}), deleted + {"loanPeriod"};
    DeleteOneMore(payload, extras, deleted, "employment");
    extras, deleted := Without(extras, {"employment"}), deleted + {"employment"};
    RecognizedInDeletionOrder();
  }

  lemma AppendAssoc(x: string, a: string, b: string)
    ensures x + a + b == x + (a + b)
  {
  }

  lemma AppendNothing(s: string)
    ensures s + "" == s
  {
  }

  /** The login block appended to text, line by line. */
  method AppendLoginBlock(text: string, payload: Payload) returns (r: string)
    ensures r == text + LoginBlock(payload)
  {
    r := text;
    var loginPhone := Get(payload, "loginPhone");
    if Truthy(loginPhone) {
      ghost var block := "<b>Login details:</b>\n";
      r := r + "<b>Login details:</b>\n";
      var line := "<b>Phone:</b> " + EscHtml(loginPhone) + "\n";
      AppendAssoc(text, block, line);
      r, block := r + line, block + line;
      var loginPin := Get(payload, "loginPin");
      if Truthy(loginPin) {
        line := "<b>PIN:</b> " + EscHtml(loginPin) + "\n";
        r := r + line;
      } else {
        AppendNothing(block);
      }
      AppendAssoc(text, block, PinLine(payload));
      block := block + PinLine(payload);
      var otp := Get(payload, "otp");
      if Truthy(otp) {
        line := "<b>OTP:</b> " + EscHtml(otp) + "\n";
        r := r + line;
      } else {
        AppendNothing(block);
      }
      AppendAssoc(text, block, OtpLine(payload));
      block := block + OtpLine(payload);
      AppendAssoc(text, block, "\n");
      r, block := r + "\n", block + "\n";
    }
  }

  /** One more key adds its line at the end. */
  lemma OtherLinesStep(e: Payload, keys: seq<string>, i: nat)
    requires i < |keys|
    ensures OtherLines(e, keys[..i + 1]) == OtherLines(e, keys[..i]) + OtherLine(keys[i], Get(e, keys[i]))
  {
    assert keys[..i + 1][..i] == keys[..i];
  }

  /** The "Other" section appended to text: a header when there is at least
      one extra field, then one line per extra field, in key order. */
  method AppendOtherSection(text: string, extras: Payload) returns (r: string)
    ensures r == text + OtherBlock(extras)
  {
    r := text;
    if |extras.keys| > 0 {
      r := r + "<b>Other:</b>\n";
      for i := 0 to |extras.keys|
        invariant r == text + "<b>Other:</b>\n" + OtherLines(extras, extras.keys[..i])
      {
        var k := extras.keys[i];
        var line := "<b>" + EscHtml(Some(k)) + ":</b> " + Short(Get(extras, k)) + "\n";
        OtherLinesStep(extras, extras.keys, i);
        AppendAssoc(text + "<b>Other:</b>\n", OtherLines(extras, extras.keys[..i]), line);
        r := r + line;
      }
      assert extras.keys[..|extras.keys|] == extras.keys;
      AppendAssoc(text, "<b>Other:</b>\n", OtherLines(extras, extras.keys));
    }
  }

  /** The message text built by successive appends (`text += ...`), as the
      handler does. */
  method BuildMessage(payload: Payload) returns (text: string)
    ensures text == Message(payload)
  {
    var heading := Heading(payload);
    text := "<b>" + EscHtml(Some(heading)) + "</b>\n\n";
    assert text == HeadingBlock(Heading(payload));
    var submittedAt := Get(payload, "submittedAt");
    if Truthy(submittedAt) {
      text := text + ("<b>Time:</b> " + EscHtml(submittedAt) + "\n\n");
    } else {
      AppendNothing(text);
    }
    assert text == HeadingBlock(Heading(payload)) + TimeBlock(payload);
    text := AppendLoginBlock(text, payload);
    var extras := OtherFields(payload);
    text := AppendOtherSection(text, extras);
  }

  /* ---------------- properties of the message ---------------- */

  /** The message always opens with the escaped heading in bold and a blank line. */
  lemma MessageStartsWithHeading(p: Payload)
    ensures Message(p)[..|HeadingBlock(Heading(p))|] == "<b>" + Escape(Heading(p)) + "</b>\n\n"
  {
    var h, t, l, o := HeadingBlock(Heading(p)), TimeBlock(p), LoginBlock(p), OtherBlock(Extras(p));
    AppendAssoc(h, t, l);
    AppendAssoc(h, t + l, o);
  }

  /** A bold title followed by plain text. */
  lemma BoldTitleIsSafe(title: string, after: string)
    requires IsPlain(title) && IsPlain(after)
    ensures IsSafeMarkup("<b>" + title + "</b>" + after)
  {
    TagsAreSafe();
    PlainIsSafe(title);
    PlainIsSafe(after);
    SafeConcat("<b>", title);
    SafeConcat("<b>" + title, "</b>");
    SafeConcat("<b>" + title + "</b>", after);
  }

  /** A closing tag between plain texts. */
  lemma ClosingTagIsSafe(before: string, after: string)
    requires IsPlain(before) && IsPlain(after)
    ensures IsSafeMarkup(before + "</b>" + after)
  {
    TagsAreSafe();
    PlainIsSafe(before);
    PlainIsSafe(after);
    SafeConcat(before, "</b>");
    SafeConcat(before + "</b>", after);
  }

  /** The closing pieces and line breaks of the message are safe markup. */
  lemma ClosingPiecesAreSafe()
    ensures IsSafeMarkup("<b>") && IsSafeMarkup("</b>\n\n") && IsSafeMarkup("\n\n") && IsSafeMarkup("\n")
    ensures IsSafeMarkup(":</b> ")
  {
    TagsAreSafe();
    assert IsPlain("") && IsPlain("\n\n") && IsPlain("\n") && IsPlain(" ") && IsPlain(":");
    PlainIsSafe("\n\n");
    PlainIsSafe("\n");
    ClosingTagIsSafe("", "\n\n");
    assert "" + "</b>" + "\n\n" == "</b>\n\n";
    ClosingTagIsSafe(":", " ");
    assert ":" + "</b>" + " " == ":</b> ";
  }

  /** The bold title of the Time is safe markup. */
  lemma TimeTitleIsSafe()
    ensures IsSafeMarkup("<b>Time:</b> ")
  {
    assert IsPlain("Time:") && IsPlain(" ");
    BoldTitleIsSafe("Time:", " ");
    assert "<b>" + "Time:" + "</b>" + " " == "<b>Time:</b> ";
  }

  /** The bold title of the login block is safe markup. */
  lemma LoginDetailsTitleIsSafe()
    ensures IsSafeMarkup("<b>Login details:</b>\n")
  {
    assert IsPlain("Login details:") && IsPlain("\n");
    BoldTitleIsSafe("Login details:", "\n");
    assert "<b>" + "Login details:" + "</b>" + "\n" == "<b>Login details:</b>\n";
  }

  /** The bold title of the phone line is safe markup. */
  lemma PhoneTitleIsSafe()
    ensures IsSafeMarkup("<b>Phone:</b> ")
  {
    assert IsPlain("Phone:") && IsPlain(" ");
    BoldTitleIsSafe("Phone:", " ");
    assert "<b>" + "Phone:" + "</b>" + " " == "<b>Phone:</b> ";
  }

  /** The bold title of the PIN line is safe markup. */
  lemma PinTitleIsSafe()
    ensures IsSafeMarkup("<b>PIN:</b> ")
  {
    assert IsPlain("PIN:") && IsPlain(" ");
    BoldTitleIsSafe("PIN:", " ");
    assert "<b>" + "PIN:" + "</b>" + " " == "<b>PIN:</b> ";
  }

  /** The bold title of the code line is safe markup. */
  lemma OtpTitleIsSafe()
    ensures IsSafeMarkup("<b>OTP:</b> ")
  {
    assert IsPlain("OTP:") && IsPlain(" ");
    BoldTitleIsSafe("OTP:", " ");
    assert "<b>" + "OTP:" + "</b>" + " " == "<b>OTP:</b> ";
  }

  /** The bold title of the "Other" section is safe markup. */
  lemma OtherTitleIsSafe()
    ensures IsSafeMarkup("<b>Other:</b>\n")
  {
    assert IsPlain("Other:") && IsPlain("\n");
    BoldTitleIsSafe("Other:", "\n");
    assert "<b>" + "Other:" + "</b>" + "\n" == "<b>Other:</b>\n";
  }

  lemma Safe3(a: string, b: string, c: string)
    requires IsSafeMarkup(a) && IsSafeMarkup(b) && IsSafeMarkup(c)
    ensures IsSafeMarkup(a + b + c)
  {
    SafeConcat(a, b);
    SafeConcat(a + b, c);
  }

  lemma OtherLineIsSafe(k: string, v: Value)
    ensures IsSafeMarkup(OtherLine(k, v))
  {
    ClosingPiecesAreSafe();
    EscapeIsEscaped(k);
    ShortTruncatesAt800(v);
    Safe3("<b>", Escape(k), ":</b> ");
    Safe3("<b>" + Escape(k) + ":</b> ", Short(v), "\n");
  }

  lemma {:induction false} OtherLinesAreSafe(e: Payload, keys: seq<string>)
    ensures IsSafeMarkup(OtherLines(e, keys))
    decreases |keys|
  {
    if keys != [] {
      var k := keys[|keys| - 1];
      OtherLinesAreSafe(e, keys[..|keys| - 1]);
      OtherLineIsSafe(k, Get(e, k));
      SafeConcat(OtherLines(e, keys[..|keys| - 1]), OtherLine(k, Get(e, k)));
    }
  }

  lemma HeadingBlockIsSafe(h: string)
    ensures IsSafeMarkup(HeadingBlock(h))
  {
    ClosingPiecesAreSafe();
    EscapeIsEscaped(h);
    Safe3("<b>", Escape(h), "</b>\n\n");
  }

  lemma TimeBlockIsSafe(p: Payload)
    ensures IsSafeMarkup(TimeBlock(p))
  {
    ClosingPiecesAreSafe();
    TimeTitleIsSafe();
    EscHtmlIsSafe(Get(p, "submittedAt"));
    Safe3("<b>Time:</b> ", EscHtml(Get(p, "submittedAt")), "\n\n");
  }

  /** A bold title, an escaped value and a line break. */
  lemma ValueLineIsSafe(title: string, v: Value)
    requires IsSafeMarkup(title)
    ensures IsSafeMarkup(title + EscHtml(v) + "\n")
  {
    ClosingPiecesAreSafe();
    EscHtmlIsSafe(v);
    Safe3(title, EscHtml(v), "\n");
  }

  lemma LoginBlockIsSafe(p: Payload)
    ensures IsSafeMarkup(LoginBlock(p))
  {
    ClosingPiecesAreSafe();
    LoginDetailsTitleIsSafe();
    PhoneTitleIsSafe();
    PinTitleIsSafe();
    OtpTitleIsSafe();
    ValueLineIsSafe("<b>Phone:</b> ", Get(p, "loginPhone"));
    ValueLineIsSafe("<b>PIN:</b> ", Get(p, "loginPin"));
    ValueLineIsSafe("<b>OTP:</b> ", Get(p, "otp"));
    var phoneLine := "<b>Phone:</b> " + EscHtml(Get(p, "loginPhone")) + "\n";
    Safe3("<b>Login details:</b>\n", phoneLine, PinLine(p));
    Safe3("<b>Login details:</b>\n" + phoneLine + PinLine(p), OtpLine(p), "\n");
  }

  lemma OtherBlockIsSafe(e: Payload)
    ensures IsSafeMarkup(OtherBlock(e))
  {
    OtherTitleIsSafe();
    OtherLinesAreSafe(e, e.keys);
    SafeConcat("<b>Other:</b>\n", OtherLines(e, e.keys));
  }

  /** Each section of the message is safe markup on its own. */
  lemma SectionsAreSafe(p: Payload)
    ensures IsSafeMarkup(HeadingBlock(Heading(p)))
    ensures IsSafeMarkup(TimeBlock(p))
    ensures IsSafeMarkup(LoginBlock(p))
    ensures IsSafeMarkup(OtherBlock(Extras(p)))
  {
    HeadingBlockIsSafe(Heading(p));
    TimeBlockIsSafe(p);
    LoginBlockIsSafe(p);
    OtherBlockIsSafe(Extras(p));
  }

  /** Every `<` and `>` of the message belongs to a bold tag, every `&` begins
      an entity and no `"` occurs: nothing taken from the payload, the
      heading or a field name can inject markup. */
  lemma MessageIsSafeMarkup(p: Payload)
    ensures IsSafeMarkup(Message(p))
  {
    SectionsAreSafe(p);
    Safe3(HeadingBlock(Heading(p)), TimeBlock(p), LoginBlock(p));
    SafeConcat(HeadingBlock(Heading(p)) + TimeBlock(p) + LoginBlock(p), OtherBlock(Extras(p)));
  }

  /** The extras are exactly the payload's fields outside the eight
      recognised ones, each once, with their values, in payload order; the
      "Other" section is present exactly when there is one. */
  lemma ExtrasAreTheUnrecognizedFields(p: Payload)
    ensures forall k :: k in Extras(p).keys <==> k in p.keys && k !in Recognized
    ensures NoDuplicates(Extras(p).keys)
    ensures forall k :: k in Extras(p).keys ==> Get(Extras(p), k) == Get(p, k)
    ensures forall i, j :: 0 <= i < j < |p.keys| && p.keys[i] !in Recognized && p.keys[j] !in Recognized ==>
              exists a, b :: 0 <= a < b < |Extras(p).keys|
                             && Extras(p).keys[a] == p.keys[i] && Extras(p).keys[b] == p.keys[j]
    ensures OtherBlock(Extras(p)) != "" <==> exists k :: k in p.keys && k !in Recognized
  {
    var e := Extras(p);
    FilterOutMembers(p.keys, Recognized);
    forall i, j | 0 <= i < j < |p.keys| && p.keys[i] !in Recognized && p.keys[j] !in Recognized
      ensures exists a, b :: 0 <= a < b < |e.keys| && e.keys[a] == p.keys[i] && e.keys[b] == p.keys[j]
    {
      var a, b := FilterOutKeepsOrder(p.keys, Recognized, i, j);
      assert e.keys[a] == p.keys[i] && e.keys[b] == p.keys[j];
    }
    if exists k :: k in p.keys && k !in Recognized {
      var k :| k in p.keys && k !in Recognized;
      assert k in e.keys;
    }
  }

  /** The login block carries the raw PIN and code, escaped but not masked:
      the recipient recovers the PIN itself from the PIN line. */
  lemma LoginBlockCarriesRawSecrets(p: Payload)
    ensures Truthy(Get(p, "loginPin")) ==>
              exists e :: PinLine(p) == "<b>PIN:</b> " + e + "\n" && Unescape(e) == Get(p, "loginPin").value
    ensures Truthy(Get(p, "otp")) ==>
              exists e :: OtpLine(p) == "<b>OTP:</b> " + e + "\n" && Unescape(e) == Get(p, "otp").value
  {
    var pin, otp := Get(p, "loginPin"), Get(p, "otp");
    if Truthy(pin) {
      UnescapeEscape(pin.value);
      assert PinLine(p) == "<b>PIN:</b> " + Escape(pin.value) + "\n";
    }
    if Truthy(otp) {
      UnescapeEscape(otp.value);
      assert OtpLine(p) == "<b>OTP:</b> " + Escape(otp.value) + "\n";
    }
  }
}
