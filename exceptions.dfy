/** The bot's five custom exception classes, as one error datatype. */
module Exceptions {

  /** Each constructor stands for one exception class; `Txt` is the fixed
      text its constructor stores in `self.txt`. */
  datatype BotError =
    | NoResponse        // raised when the API answers with a status other than 200
    | ParseMissStatus   // raised for a homework status missing from the catalogue
    | ListKey           // meant for a missing `homeworks` key; never raised in practice
    | NotaList          // raised when `homeworks` is not a list
    | SendMessage       // meant for a failed delivery; the messaging SDK never raises it
  {
    function Txt(): (t: string)
      ensures |t| > 0
    {
      match this
      case NoResponse => "Статус код ответа != 200"
      case ParseMissStatus => "Недокументированный статус работы"
      case ListKey => "Неверный ключ словаря для API"
      case NotaList => "Должен быть передан список."
      case SendMessage => "Ошибка при отправке сообщения."
    }
  }

  /** Two different exception classes never share their text, so the
      failure message the loop sends tells them apart. */
  lemma TxtIdentifiesError(a: BotError, b: BotError)
    requires a.Txt() == b.Txt()
    ensures a == b
  {
  }
}
