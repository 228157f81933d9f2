/** The protocol commands the engine emits: JOIN, MODE, KICK and NAMES (section 3.2 of RFC 2812) and WHOIS (section 3.6.2 of RFC 2812). */
module Irc {

  /** The channel modes the engine sets: operator, voice and ban. */
  datatype ModeFlag = Op | Voice | Ban {
    function Text(): string {
      match this
      case Op => "+o"
      case Voice => "+v"
      case Ban => "+b"
    }
  }

  datatype Command =
    | Join(channel: string)
    | Mode(channel: string, flag: ModeFlag, param: string)
    | Kick(channel: string, nick: string, reason: string)
    | Names(channel: string)
    | Whois(nick: string)

  /** The server-side account ban mask for `account`. */
  function BanMask(account: string): string {
    "$a:" + account
  }
}
