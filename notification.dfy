/** The notification presenter: the content and classes of the message
    area. */
module Notification {
  import opened Wrappers

  /** The two message types; each is also the CSS class the area carries. */
  datatype Kind = Success | Error

  /** The icon placed before the text. */
  datatype Icon = CheckCircle | TimesCircle

  /** The content of the message area: an icon, a text node, and the type
      class. */
  datatype Notice = Notice(icon: Icon, text: string, kind: Kind)

  /** The message element: its last content, if any, and whether it carries
      the `show` class. */
  datatype MessageArea = MessageArea(notice: Option<Notice>, shown: bool)

  function IconFor(kind: Kind): Icon {
    match kind
    case Success => CheckCircle
    case Error => TimesCircle
  }

  /** The content `showMessage(text, kind)` writes: the icon for the kind,
      the text after one space, and the kind as the sole type class. */
  function NoticeOf(text: string, kind: Kind): Notice {
    Notice(IconFor(kind), " " + text, kind)
  }

  /** The notice carries the kind as its type class, the icon that goes
      with the kind, and the text after one leading space. */
  lemma NoticeOfContent(text: string, kind: Kind)
    ensures NoticeOf(text, kind).kind == kind
    ensures NoticeOf(text, kind).icon == CheckCircle <==> kind == Success
    ensures |NoticeOf(text, kind).text| == |text| + 1 && NoticeOf(text, kind).text[0] == ' '
    ensures NoticeOf(text, kind).text[1..] == text
  {
  }

  /** Two notices are the same only for the same text and kind. */
  lemma NoticeOfInjective(t1: string, k1: Kind, t2: string, k2: Kind)
    requires NoticeOf(t1, k1) == NoticeOf(t2, k2)
    ensures t1 == t2 && k1 == k2
  {
    NoticeOfContent(t1, k1);
    NoticeOfContent(t2, k2);
  }
}
