/** The constants of config.py that the bot's logic reads, gathered into one
    value so that every operation takes them as a parameter. */
module Settings {

  /** One entry of the ordered `DEFAULT_RESPONSES` dictionary. */
  datatype Template = Template(category: string, replies: seq<string>)

  datatype Config = Config(
    maxResponsesPerHour: nat,          // MAX_RESPONSES_PER_HOUR
    maxRetries: nat,                   // MAX_RETRIES
    processHiddenMessages: bool,       // PROCESS_HIDDEN_MESSAGES
    clubInfo: string,                  // CLUB_INFO
    clubKeywords: seq<string>,         // CLUB_KEYWORDS
    defaultResponses: seq<Template>,   // DEFAULT_RESPONSES, in insertion order
    enableHealthCheck: bool,           // ENABLE_HEALTH_CHECK
    healthCheckInterval: int)          // HEALTH_CHECK_INTERVAL, in seconds

  /** Seconds in the rate limiter's window (`timedelta(hours=1)`). */
  const RateWindow: int := 3600

  /** Age in seconds beyond which a message is too old to answer (`timedelta(minutes=5)`). */
  const StaleAfter: int := 300

  const ClubInfo: string :=
    "\U{1F4CD} Address: General Prim 71 Hospitalet (Barcelona, Spain)\n\n"
    + "\U{23F0} Opening times: everyday 10am - 11pm\n\n"
    + "\U{1F6AA} Entering the club: Walk under the shutters and ring the doorbell (on the left)\n\n"
    + "\U{1F512} 30\U{20AC} Membership: To become a member, you must arrive at DOE BCN with your ID, please.\n\n"
    + "\U{1F4AD} Any other information can be found at the club \n\n"
    + "We hope to see you soon \U{1FAE1}\U{1F4A8}\n\n"
    + "@DOEBCN \U{1F1EA}\U{1F1F8} @GrowWithDoe \U{1F331} @DankOfEngland \U{1F451}"

  const ClubKeywords: seq<string> := [
    "join", "membership", "member", "club", "doe", "bcn", "barcelona",
    "social club", "how to join", "where", "address", "location",
    "opening", "hours", "time", "price", "cost", "fee", "id",
    "entrance", "enter", "door", "doorbell", "test"
  ]

  const DefaultResponses: seq<Template> := [
    Template("greeting", [
      "Hey! Thanks for your message. I'll get back to you soon!",
      "Hi there! Thanks for reaching out. I'll respond shortly!"]),
    Template("question", [
      "That's a great question! Let me look into that for you.",
      "I'll check that out and get back to you right away."]),
    Template("urgent", [
      "I understand this is urgent. I'll prioritize your request.",
      "Thanks for letting me know about the urgency. I'll handle this ASAP."])
  ]

  /** The configuration as config.py ships it. */
  const Shipped: Config := Config(
    maxResponsesPerHour := 50,
    maxRetries := 3,
    processHiddenMessages := true,
    clubInfo := ClubInfo,
    clubKeywords := ClubKeywords,
    defaultResponses := DefaultResponses,
    enableHealthCheck := true,
    healthCheckInterval := 3600)
}
