/** Values shared by the health tracker, the webhook payload rules and the
    status page: an optional value and the two transition events. */
module Events {

  datatype Option<+T> = None | Some(value: T)

  /** The two notifications the cron tick can send: the down alert when a
      poll fails while the bot is believed active, and the recovery
      ("All Systems Green") when a poll succeeds while it is believed down. */
  datatype Event = Down | Recovered
}
