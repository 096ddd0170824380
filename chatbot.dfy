/**
 * The FAQ chatbot widget: a message list and a list of questions still on
 * offer. Clicking a question posts it, takes it off the list and schedules
 * the bot's answer; the answer arrives as a separate step. Reset restores the
 * greeting and the full question list.
 */
module FaqChatbot {
  import opened Wrappers
  import Seqs

  datatype Sender = Bot | User
  datatype Message = Message(sender: Sender, text: string)
  datatype Faq = Faq(question: string, answer: string)

  const Question1: string := "Как сделать заказ?"
  const Answer1: string :=
    "Для оформления заказа войдите в систему, выберите тип продукта (фотоальбом, фотографии или календарь), настройте параметры, загрузите фотографии или закажите фотографа, и подтвердите заказ."
  const Question2: string := "Какие форматы фотографий поддерживаются?"
  const Answer2: string :=
    "Мы поддерживаем все стандартные форматы изображений: JPG, PNG, HEIC. Для лучшего качества печати рекомендуем использовать файлы с разрешением не менее 300 DPI."
  const Question3: string := "Сколько стоит доставка?"
  const Answer3: string :=
    "Стоимость доставки зависит от вашего региона и размера заказа. При оформлении заказа вы увидите точную стоимость доставки. Бесплатная доставка при заказе от 5000 рублей."
  const Question4: string := "Как долго выполняется заказ?"
  const Answer4: string :=
    "Стандартный срок изготовления — 3-5 рабочих дней. Срочное изготовление (1-2 дня) доступно за дополнительную плату. Доставка по Москве занимает 1-2 дня, по России — 3-7 дней."
  const Question5: string := "Можно ли заказать фотографа?"
  const Answer5: string :=
    "Да! Мы предлагаем услуги профессиональных фотографов. При оформлении заказа выберите опцию 'Заказать фотографа', укажите дату, время и место съемки. Стоимость услуг фотографа начинается от 2000 рублей в час."
  const Question6: string := "Какие типы фотоальбомов доступны?"
  const Answer6: string :=
    "Мы предлагаем фотоальбомы с твердой и мягкой обложкой, различных размеров (A4, A5, квадратные). Доступна печать на обложке и различные варианты переплета."
  const Question7: string := "Можно ли отредактировать заказ после оформления?"
  const Answer7: string :=
    "Заказ можно отредактировать до начала производства. Свяжитесь с нашей службой поддержки как можно скорее после оформления заказа."
  const Question8: string := "Какая гарантия качества?"
  const Answer8: string :=
    "Мы гарантируем высокое качество всех наших продуктов. Если вы не удовлетворены результатом, мы переделаем заказ бесплатно или вернем деньги."

  /** The eight questions and answers, in the order the widget lists them. */
  const Faqs: seq<Faq> := [
    Faq(Question1, Answer1),
    Faq(Question2, Answer2),
    Faq(Question3, Answer3),
    Faq(Question4, Answer4),
    Faq(Question5, Answer5),
    Faq(Question6, Answer6),
    Faq(Question7, Answer7),
    Faq(Question8, Answer8)
  ]

  const GreetingText: string :=
    "Здравствуйте! Я бот-помощник Netprint. Выберите вопрос из списка ниже, и я помогу вам."

  /** The message the chat opens with, and returns to on reset. */
  const Greeting: Message := Message(Bot, GreetingText)

  /** `faqs.map(faq => faq.question)` */
  function Questions(fs: seq<Faq>): (r: seq<string>)
    ensures |r| == |fs|
    ensures forall i :: 0 <= i < |fs| ==> r[i] == fs[i].question
  {
    if fs == [] then [] else [fs[0].question] + Questions(fs[1..])
  }

  /** The entry asking the given question. */
  function Asks(question: string): Faq -> bool {
    (f: Faq) => f.question == question
  }

  /** `faqs.find(f => f.question === question)`: the first entry asking it. */
  function FindFaq(fs: seq<Faq>, question: string): Option<Faq> {
    Seqs.Find(fs, Asks(question))
  }

  /** A FAQ list answers exactly the questions it lists. */
  lemma KnownQuestion(fs: seq<Faq>, question: string)
    ensures FindFaq(fs, question).Some? <==> question in Questions(fs)
  {
    var qs := Questions(fs);
    if question in qs {
      var i :| 0 <= i < |qs| && qs[i] == question;
      assert fs[i].question == question;
    }
  }

  /** No question is listed twice. */
  lemma QuestionsDistinct()
    ensures forall i, j :: 0 <= i < j < |Faqs| ==> Faqs[i].question != Faqs[j].question
  {
    assert Faqs[3].question[0] != Faqs[4].question[0];
  }

  /** `prev.filter(q => q !== question)` */
  function Without(qs: seq<string>, question: string): (r: seq<string>)
    ensures forall q :: q in r <==> q in qs && q != question
    ensures |r| <= |qs|
  {
    if qs == [] then []
    else (if qs[0] == question then [] else [qs[0]]) + Without(qs[1..], question)
  }

  /** Where the question occurs exactly once, the filter removes that one entry and keeps the rest in order. */
  lemma {:induction false} WithoutOnce(qs: seq<string>, i: nat)
    requires i < |qs|
    requires forall j :: 0 <= j < |qs| && j != i ==> qs[j] != qs[i]
    ensures Without(qs, qs[i]) == qs[..i] + qs[i + 1..]
  {
    if i == 0 {
      WithoutAbsent(qs[1..], qs[0]);
    } else {
      WithoutOnce(qs[1..], i - 1);
      assert qs[1..][..i - 1] + qs[1..][i..] == qs[1..i] + qs[i + 1..];
      assert qs[..i] == [qs[0]] + qs[1..i];
    }
  }

  /** Filtering out a question that is not there changes nothing. */
  lemma {:induction false} WithoutAbsent(qs: seq<string>, question: string)
    requires question !in qs
    ensures Without(qs, question) == qs
  {
    if qs != [] {
      WithoutAbsent(qs[1..], question);
      assert qs == [qs[0]] + qs[1..];
    }
  }

  /** Asking the `i`-th listed question brings up the `i`-th answer. */
  lemma AnswerOfListed(i: nat)
    requires i < |Faqs|
    ensures FindFaq(Faqs, Faqs[i].question) == Some(Faqs[i])
  {
    QuestionsDistinct();
    Seqs.FindAt(Faqs, Asks(Faqs[i].question), i);
  }

  /** From the full list, clicking the `i`-th question removes exactly that entry and keeps the others in order. */
  lemma ClickFromFullList(i: nat)
    requires i < |Faqs|
    ensures Without(Questions(Faqs), Faqs[i].question) == Questions(Faqs)[..i] + Questions(Faqs)[i + 1..]
  {
    QuestionsDistinct();
    WithoutOnce(Questions(Faqs), i);
  }

  /** `a` can be obtained from `b` by deleting entries. */
  predicate IsSubsequence(a: seq<string>, b: seq<string>)
    decreases |b|
  {
    if b == [] then a == []
    else (a != [] && a[0] == b[0] && IsSubsequence(a[1..], b[1..])) || IsSubsequence(a, b[1..])
  }

  lemma {:induction false} SubsequenceRefl(a: seq<string>)
    ensures IsSubsequence(a, a)
    decreases |a|
  {
    if a != [] {
      SubsequenceRefl(a[1..]);
    }
  }

  /** Filtering a subsequence leaves a subsequence. */
  lemma {:induction false} WithoutSubsequence(a: seq<string>, b: seq<string>, question: string)
    requires IsSubsequence(a, b)
    ensures IsSubsequence(Without(a, question), b)
    decreases |b|
  {
    if b != [] {
      if a != [] && a[0] == b[0] && IsSubsequence(a[1..], b[1..]) {
        WithoutSubsequence(a[1..], b[1..], question);
        var w := Without(a[1..], question);
        if a[0] == question {
          assert Without(a, question) == w;
        } else {
          assert Without(a, question) == [a[0]] + w;
          assert ([a[0]] + w)[1..] == w;
        }
      } else {
        WithoutSubsequence(a, b[1..], question);
      }
    }
  }

  /** Taking a question off the list never adds one: the new list is a subsequence of the old. */
  lemma WithoutShrinks(qs: seq<string>, question: string)
    ensures IsSubsequence(Without(qs, question), qs)
  {
    SubsequenceRefl(qs);
    WithoutSubsequence(qs, qs, question);
  }

  class Chatbot {
    /** The FAQ list the widget is built on: `Faqs`. */
    const faqs: seq<Faq>
    var messages: seq<Message>
    var availableQuestions: seq<string>
    /** Answers whose 500 ms timer has been set and has not fired yet, oldest first. */
    var pendingReplies: seq<string>

    ghost predicate Valid()
      reads this
    {
      && |messages| >= 1 && messages[0] == Greeting
      && IsSubsequence(availableQuestions, Questions(faqs))
    }

    /** One greeting from the bot, and every question on offer in list order. */
    constructor ()
      ensures Valid() && faqs == Faqs
      ensures messages == [Greeting] && availableQuestions == Questions(faqs) && pendingReplies == []
    {
      faqs := Faqs;
      messages := [Greeting];
      pendingReplies := [];
      new;
      availableQuestions := Questions(faqs);
      SubsequenceRefl(Questions(faqs));
    }

    /**
     * A question the widget does not know changes nothing. A known one is
     * posted as the user's message, its answer is scheduled, and it leaves
     * the list of questions on offer.
     */
    method QuestionClick(question: string)
      requires Valid()
      modifies this
      ensures Valid()
      ensures FindFaq(faqs, question).None? ==>
        messages == old(messages) && availableQuestions == old(availableQuestions)
        && pendingReplies == old(pendingReplies)
      ensures FindFaq(faqs, question).Some? ==>
        && messages == old(messages) + [Message(User, question)]
        && pendingReplies == old(pendingReplies) + [FindFaq(faqs, question).value.answer]
        && availableQuestions == Without(old(availableQuestions), question)
      ensures IsSubsequence(availableQuestions, old(availableQuestions))
    {
      var faq := FindFaq(faqs, question);
      if faq.None? {
        SubsequenceRefl(availableQuestions);
        return;
      }
      messages := messages + [Message(User, question)];
      pendingReplies := pendingReplies + [faq.value.answer];
      WithoutShrinks(availableQuestions, question);
      WithoutSubsequence(availableQuestions, Questions(faqs), question);
      availableQuestions := Without(availableQuestions, question);
    }

    /** The oldest scheduled answer arrives as one bot message. */
    method ReplyArrives()
      requires Valid() && pendingReplies != []
      modifies this
      ensures Valid()
      ensures messages == old(messages) + [Message(Bot, old(pendingReplies[0]))]
      ensures pendingReplies == old(pendingReplies[1..])
      ensures availableQuestions == old(availableQuestions)
    {
      messages := messages + [Message(Bot, pendingReplies[0])];
      pendingReplies := pendingReplies[1..];
    }

    /** Back to the greeting and the full list. Timers already set are not cancelled. */
    method Reset()
      requires Valid()
      modifies this
      ensures Valid()
      ensures messages == [Greeting] && availableQuestions == Questions(faqs)
      ensures pendingReplies == old(pendingReplies)
    {
      messages := [Greeting];
      availableQuestions := Questions(faqs);
      SubsequenceRefl(Questions(faqs));
    }
  }
}
