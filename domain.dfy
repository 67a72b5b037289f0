/** The values the nomination form works with: dates, the nomination window and the stored record. */
module Domain {

  datatype Option<T> = None | Some(value: T)

  /** The value of a date field or of a stored record's `selectedDate`.
      `NoDate` is the empty string, `Day(n)` the canonical `YYYY-MM-DD` text of day number `n`,
      and `Other(text)` any other non-empty text: for the date field, text the date parser rejects;
      for a stored record, anything that is not a bucket key. */
  datatype DateValue = NoDate | Day(day: int) | Other(text: string)

  /** The inclusive window of days on which an aarti can be nominated, from the first day at
      midnight to the last day at 23:59:59. The labels are the two days as the page prints them. */
  datatype Window = Window(first: int, last: int, firstLabel: string, lastLabel: string)

  /** The `value` of the two slot radio buttons. */
  const MorningSlot: string := "Morning"
  const EveningSlot: string := "Evening"

  /** One document of the nominations collection. `flatNo` holds only the floor-and-flat part,
      `wing` the letter in front of the hyphen. */
  datatype Nomination = Nomination(
    userId: string,
    fullName: string,
    flatNo: string,
    wing: string,
    whatsappNo: string,
    selectedDate: DateValue,
    selectedSlot: string,
    bringOwnThali: bool,
    timestamp: int)
}
