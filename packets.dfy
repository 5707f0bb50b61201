/**
 * The packets the window tracker and the wielding logic exchange with the
 * server, as decoded values. Their byte layouts are not part of this model;
 * see the packet codec module for the layouts that are.
 */
module Packets {
  import opened Wrappers

  /** An item stack: its item type and how many of it (`ItemType::Melon * 2`). */
  datatype Item = Item(itemType: int, count: int)

  /** The item list of a window snapshot: one entry per slot id, `None` for an empty spot. */
  type Items = seq<Option<Item>>

  datatype Packet =
    | KeepAlive
    | ChatMessage(message: string)
      /** The server opens a window; `inventoryType` is the window-class tid. */
    | OpenWindow(windowId: int, inventoryType: int, title: string, spotCount: nat)
    | CloseWindow(windowId: int)
      /** A full snapshot of a window's spots. */
    | SetWindowItems(windowId: int, items: Items)
      /** One spot's new contents; window id -1 addresses the cursor. */
    | SetSlot(windowId: int, spotId: int, item: Option<Item>)
      /** Sent by the bot: the hotbar index it now holds. */
    | HeldItemChange(spotId: int)
}
